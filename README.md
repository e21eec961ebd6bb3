# Ledgerly expense tracker: the monthly dashboard, the transactions list and the transactions API

Ledgerly is a personal expense tracker. This Dafny project models the three places where the
application has real logic:

- **The dashboard's monthly overview** (`getMonthData`). It keeps the transactions that fall
  inside the selected calendar month. It builds a dense per-day series (one bar per day
  1..daysInMonth) and adds the month up into a total. The page also has month navigation
  ("prev"/"next" through `Date.setMonth`) and the five most recent transactions. The page
  also defines a delete handler, but nothing on the page calls it.
- **The transactions page's list state.** This covers the payment-mode filter, delete-by-id,
  the edit dialog (the "editing" slot, its field setters, update and cancel) and the
  payment-mode labels.
- **The `/api/transactions` route handler.** It answers 401 when the identity provider gives
  no user id or an empty one. GET lists the user's transactions newest first, with their sum.
  POST provisions the user record on first use and stores exactly the fields it reads from the
  body. Any other method gets 405. A store failure gives 500.

Modules:

- `Calendar` (calendar.dfy) is the local calendar that JavaScript's `Date` presents. It covers
  Gregorian month lengths and the timestamp order. `MakeDate` is the normalisation done by
  `new Date(y, m, d)`, and `SetMonth` is `setMonth`.
- `Ledger` (ledger.dfy) holds the transaction record and `filter`. Its contract fixes the result
  exactly, by multiplicity and order. It also holds delete-by-id and the amount sum.
- `Dashboard` (dashboard.dfy) holds the pure aggregation `GetMonthData` and its properties. The
  page state is the class `DashboardPage`.
- `TransactionsPage` (transactions_page.dfy) holds the filter, replace-by-id and the labels. The
  page state is the class `TransactionsView`, with the fields `transactions`, `editing` and
  `filter`.
- `TransactionsApi` (transactions_api.dfy) holds the store, a class with a user map keyed by
  clerkId and a sequence of transactions. It also holds the imperative `Handler`.

Amounts are `int`, read as minor currency units, so every sum identity holds exactly. A
transaction's date is a valid local date and time: year, month 0..11, day of month, and
milliseconds since local midnight. Ordering dates lexicographically gives the order of the
underlying timestamps.

The code is followed as written, including two behaviours that a reader might not expect:

- `monthEnd` is `new Date(y, m + 1, 0)`, which is local midnight at the *start* of the month's
  last day. The test `date <= monthEnd` therefore drops every transaction dated later than
  00:00:00.000 on that day. `Dashboard.MonthWindow` characterises the window exactly, and
  `Dashboard.LastDayAfterMidnightDropped` shows the loss.
- "prev"/"next" call `setMonth(getMonth() ± 1)` and keep the day of the month. From the 29th,
  30th or 31st, the result can skip a month: 31 January 2024 goes to 2 March. It can also stay
  in the same month: 31 March 2023 goes "back" to 3 March. `Calendar.NextMonthOverflow` and
  `Calendar.PrevMonthOverflow` prove these cases. When the day exists in the target month
  (always for days up to 28), navigation moves exactly one month and keeps the day.

The application has no date-range filter and no report export. The daily average divides by
`dailyData.length` without a zero guard; that divisor is proved to be at least 28.

## Model

| member | source | states |
|---|---|---|
| `Calendar.DaysInMonth` | src/pages/dashboard.tsx:76-80 | the length of a month, as `new Date(y, m + 1, 0).getDate()` yields it, lies between 28 and 31 |
| `Calendar.LeapDay` | src/pages/dashboard.tsx:76-80 | a month has 29 days exactly when it is February of a Gregorian leap year; other months do not depend on the year |
| `Calendar.YearLength` | src/pages/dashboard.tsx:76-80 | the twelve month lengths add up to 366 in leap years and 365 otherwise |
| `Calendar.AtOrBeforeTotalOrder` | src/pages/dashboard.tsx:84 | the date comparison `<=` used for the month window and the listing order is a total order |
| `Calendar.NormalizeDay` | src/pages/dashboard.tsx:71-80 | the day-of-month normalisation of a `Date` always yields a valid date and keeps the time of day |
| `Calendar.MakeDate` | src/pages/dashboard.tsx:71-80 | `new Date(y, m, d)` always yields a valid date with the given time of day |
| `Calendar.MakeDateInMonth` | src/pages/dashboard.tsx:71-75 | `new Date(y, m, d)` with a day inside the month is exactly that day at midnight, so `monthStart` is midnight of day 1 |
| `Calendar.DayZeroOfNextMonth` | src/pages/dashboard.tsx:76-80 | `new Date(y, m + 1, 0)` is midnight starting the last day of month `m` in year `y`, December included |
| `Calendar.MonthIndexCarry` | src/pages/dashboard.tsx:124-126 | month index `m + 1` / `m - 1` carries into the next / previous year exactly at December / January |
| `Calendar.SetMonth` | src/pages/dashboard.tsx:122-127 | `setMonth` keeps the time of day and yields a valid date |
| `Calendar.NextMonthExact` | src/pages/dashboard.tsx:121-129 | when the day of the month exists in the following month (always for days up to 28), "next" moves to that day of the following month, rolling December into January of the next year |
| `Calendar.PrevMonthExact` | src/pages/dashboard.tsx:121-129 | when the day of the month exists in the preceding month (always for days up to 28), "prev" moves to that day of the preceding month, rolling January back into December |
| `Calendar.NextPrevRoundTrip` | src/pages/dashboard.tsx:121-129 | "next" then "prev" gives back the original date whenever the day exists in the following month, and "prev" then "next" whenever it exists in the preceding month |
| `Calendar.NextMonthOverflow` | src/pages/dashboard.tsx:121-129 | when the day does not exist in the next month, "next" lands in the month after it, on the overflow day |
| `Calendar.PrevMonthOverflow` | src/pages/dashboard.tsx:121-129 | when the day does not exist in the previous month, "prev" stays in the current month, on the overflow day |
| `Calendar.NextFromJanuary31SkipsFebruary` | src/pages/dashboard.tsx:121-129 | "next" from 31 January 2024 shows 2 March 2024 |
| `Calendar.PrevFromMarch31StaysInMarch` | src/pages/dashboard.tsx:121-129 | "prev" from 31 March 2023 shows 3 March 2023 |
| `Ledger.Filter` | src/pages/dashboard.tsx:82-85 | `filter` keeps exactly the elements passing the test, each as often as in the input, and nothing else |
| `Ledger.FilterIsSubsequence` | src/pages/dashboard.tsx:82-85 | a filtered list is an order-preserving subsequence of its input |
| `Ledger.FilterKeepsAll` | src/pages/transactions.tsx:72-73 | a test that every element passes returns the list unchanged |
| `Ledger.FilterIdempotent` | src/pages/transactions.tsx:72-75 | filtering twice with the same test is filtering once |
| `Ledger.RemoveId` | src/pages/transactions.tsx:31 | deleting by id leaves no transaction with that id, keeps every other one as often as before, and keeps their order |
| `Ledger.RemoveAbsentId` | src/pages/transactions.tsx:31 | deleting an id that no transaction carries changes nothing |
| `Ledger.SumAppend` | src/pages/dashboard.tsx:101 | the amount sum of a concatenation is the sum of the parts |
| `Ledger.SumNonNegative` | src/pages/dashboard.tsx:101 | the sum of an empty list is 0, and non-negative amounts never sum to a negative total |
| `Dashboard.DailyData` | src/pages/dashboard.tsx:87-96 | the series has the requested length and point `i` is labelled day `i + 1` |
| `Dashboard.GetMonthData` | src/pages/dashboard.tsx:70-103 | `dailyData` has exactly daysInMonth(selected) points labelled 1, 2, ... without gaps, and the kept transactions are an ordered subsequence of the list |
| `Dashboard.MonthStart` | src/pages/dashboard.tsx:71-75 | `monthStart` is midnight starting day 1 of the selected month |
| `Dashboard.MonthEnd` | src/pages/dashboard.tsx:76-80 | `monthEnd` is midnight starting the last day of the selected month, not the end of that day |
| `Dashboard.Between` | src/pages/dashboard.tsx:84 | a transaction passes the window test only when the window's start is not after its end |
| `Dashboard.OnDay` | src/pages/dashboard.tsx:90 | the per-day test compares the day of the month of the transaction's date; `Dashboard.DayTotalCons` states what it contributes |
| `Dashboard.DayTotal` | src/pages/dashboard.tsx:89-94 | one bar's amount; its meaning is stated by `Dashboard.DayTotalCons` and `Dashboard.EmptyDayIsZero` |
| `Dashboard.MonthWindow` | src/pages/dashboard.tsx:71-85 | a transaction is kept exactly when it lies in the selected year and month and not later than midnight starting the month's last day |
| `Dashboard.KeptTransactions` | src/pages/dashboard.tsx:82-85 | the month's transactions (their count is the displayed count) are exactly those in the window, each as often as in the list |
| `Dashboard.LastDayAfterMidnightDropped` | src/pages/dashboard.tsx:76-85 | a transaction on the month's last day after 00:00:00.000 is not among the month's transactions |
| `Dashboard.DayTotalCons` | src/pages/dashboard.tsx:89-94 | a transaction contributes its amount to the bar of its own day and to no other bar |
| `Dashboard.DaysTotalIsSum` | src/pages/dashboard.tsx:87-101 | when every transaction falls on one of the days 1..n, the bars of those days add up to the plain sum |
| `Dashboard.TotalIsSumOfDailyData` | src/pages/dashboard.tsx:87-101 | the monthly `total` equals the sum of all `dailyData` amounts |
| `Dashboard.DailyAmount` | src/pages/dashboard.tsx:89-95 | bar `i` holds the sum of the month's transactions dated on day `i + 1` |
| `Dashboard.EmptyDayIsZero` | src/pages/dashboard.tsx:89-95 | a day without month transactions has a bar of 0 |
| `Dashboard.EmptyMonth` | src/pages/dashboard.tsx:87-101 | with no transactions the total and every bar are 0 |
| `Dashboard.DailyAverageDivisor` | src/pages/dashboard.tsx:260 | the daily-average divisor `dailyData.length` is between 28 and 31, never 0 |
| `Dashboard.Recent` | src/pages/dashboard.tsx:343-344 | "Recent Transactions" shows the first min(5, n) transactions, in list order |
| `Dashboard.DashboardPage.constructor` | src/pages/dashboard.tsx:41-46 | the page starts with an empty list on the current date |
| `Dashboard.DashboardPage.ReceiveTransactions` | src/pages/dashboard.tsx:57-58 | a fetched listing replaces the list; a missing one gives the empty list |
| `Dashboard.DashboardPage.HandleMonthChange` | src/pages/dashboard.tsx:121-129 | the new selection is `setMonth(getMonth() ± 1)` of the old one and the list is untouched; when the day exists in the neighbouring month, the selection is that month, same day and time |
| `Dashboard.DashboardPage.Overview` | src/pages/dashboard.tsx:105 | the overview rendered from the page state has one bar per day of the selected month, and its total is the sum of the bars |
| `Dashboard.DashboardPage.HandleDelete` | src/pages/dashboard.tsx:131-144 | only a confirmed delete with an OK response removes the id; otherwise nothing changes (no element of the page calls this handler) |
| `TransactionsPage.FilterTransactions` | src/pages/transactions.tsx:72-75 | "all" shows the list unchanged; a mode shows exactly the transactions of that payment mode, with their multiplicity, in list order |
| `TransactionsPage.FilterTransactionsIdempotent` | src/pages/transactions.tsx:72-75 | filtering the displayed list again with the same value changes nothing |
| `TransactionsPage.ModeViewWithinAll` | src/pages/transactions.tsx:72-75 | each mode's view is an ordered part of the "all" view |
| `TransactionsPage.ShownCountCons` | src/pages/transactions.tsx:72-75 | a transaction is shown under a filter exactly when the filter is "all" or names its payment mode |
| `TransactionsPage.ModeViewsPartition` | src/pages/transactions.tsx:72-75 | when every transaction has one of the four modes, the four mode views together are as large as the "all" view |
| `TransactionsPage.ModeLabel` | src/pages/transactions.tsx:151-156 | CASH, CARD, UPI and NET_BANKING each render exactly their own label; any other mode renders nothing |
| `TransactionsPage.ModeLabelsDistinct` | src/pages/transactions.tsx:152-155 | different known modes render different, non-empty labels |
| `TransactionsPage.ReplaceById` | src/pages/transactions.tsx:58-62 | replace-by-id preserves the length of the list |
| `TransactionsPage.ReplaceKeepsOthers` | src/pages/transactions.tsx:58-62 | replace-by-id leaves every transaction with another id in place and in order |
| `TransactionsPage.ReplaceAtMatches` | src/pages/transactions.tsx:58-62 | every position keeps its id, and each position with the edited id holds the edited record |
| `TransactionsPage.ReplaceIdempotent` | src/pages/transactions.tsx:58-62 | replacing twice with the same record is replacing once |
| `TransactionsPage.ReplaceAbsent` | src/pages/transactions.tsx:58-62 | an edited id that no transaction carries leaves the list unchanged |
| `TransactionsPage.TransactionsView.constructor` | src/pages/transactions.tsx:11-13 | the page starts with an empty list, no transaction being edited and the "all" filter |
| `TransactionsPage.TransactionsView.ReceiveTransactions` | src/pages/transactions.tsx:18-20 | the `transactions` field of the response body is stored as it is: the list on success, no list (JavaScript's `undefined`) for an error body; the dialog and the filter are untouched |
| `TransactionsPage.TransactionsView.Displayed` | src/pages/transactions.tsx:72-75 | the rows on screen are an ordered part of the list; there are none exactly when there is no list, where the render's `filter` call throws |
| `TransactionsPage.TransactionsView.SetFilter` | src/pages/transactions.tsx:101-105 | the drop-down sets the filter and nothing else |
| `TransactionsPage.TransactionsView.HandleDelete` | src/pages/transactions.tsx:25-38 | an OK response removes every transaction with the id; a failed response, an exception, or an OK response with no list (whose `filter` call throws inside the `try`) changes nothing |
| `TransactionsPage.TransactionsView.HandleEdit` | src/pages/transactions.tsx:40-42 | the edit button puts the transaction in the editing slot and changes nothing else |
| `TransactionsPage.TransactionsView.HandleUpdate` | src/pages/transactions.tsx:44-70 | without an editing transaction nothing happens; on OK the list is replace-by-id with the edited record and the slot is cleared; on failure, or on OK with no list to `map` over, list and slot are unchanged |
| `TransactionsPage.TransactionsView.EditAmount` | src/pages/transactions.tsx:234-238 | the amount field changes only the amount of the edited record |
| `TransactionsPage.TransactionsView.EditDescription` | src/pages/transactions.tsx:250-254 | the description field changes only the description of the edited record |
| `TransactionsPage.TransactionsView.EditPaymentMode` | src/pages/transactions.tsx:265-269 | the payment-mode select changes only the payment mode of the edited record |
| `TransactionsPage.TransactionsView.CancelEdit` | src/pages/transactions.tsx:282 | "Cancel" clears the editing slot without touching the list |
| `TransactionsApi.Truthy` | src/pages/api/transactions/index.ts:63 | `Boolean(isSplit)` is false exactly for a missing value, null, false, 0 and the empty string |
| `TransactionsApi.EmailOf` | src/pages/api/transactions/index.ts:54 | the email of a new user is never empty: the body's email when it is a non-empty string, otherwise the fallback address |
| `TransactionsApi.BuildTransactionData` | src/pages/api/transactions/index.ts:59-66 | `transactionData` carries the owner's id and the boolean `Boolean(isSplit)`; `TransactionsApi.StoredFieldsOnly` states what else it depends on |
| `TransactionsApi.Stored` | src/pages/api/transactions/index.ts:68-70 | the created record carries the id the database assigns and gives back exactly the data it was created from |
| `TransactionsApi.StoredFieldsOnly` | src/pages/api/transactions/index.ts:59-66 | the stored record depends only on amount, description, payment mode, `Boolean(isSplit)` and date (category, splitWith and email are dropped), and its `userId` is the owner's id |
| `TransactionsApi.InsertByDate` | src/pages/api/transactions/index.ts:23-25 | inserting into the listing adds exactly that one transaction |
| `TransactionsApi.InsertByDateNewestFirst` | src/pages/api/transactions/index.ts:23-25 | inserting into a newest-first list keeps it newest first |
| `TransactionsApi.ByDateDesc` | src/pages/api/transactions/index.ts:23-25 | ordering by date descending yields a newest-first permutation of its input |
| `TransactionsApi.ListForUser` | src/pages/api/transactions/index.ts:19-26 | the GET listing holds exactly the transactions whose `userId` matches, each as often as stored, newest first |
| `TransactionsApi.SumInsertByDate` | src/pages/api/transactions/index.ts:28-31 | inserting a transaction into the listing adds its amount to the sum |
| `TransactionsApi.SumByDateDesc` | src/pages/api/transactions/index.ts:28-31 | the order of the listing does not change the sum |
| `TransactionsApi.TotalExpenseIsUserSum` | src/pages/api/transactions/index.ts:28-31 | `totalExpense` is the sum of the user's stored amounts, and 0 when the user has none |
| `TransactionsApi.CreatedIsListed` | src/pages/api/transactions/index.ts:59-70 | a transaction stored for a user appears in that user's next GET listing |
| `TransactionsApi.Store.FindUser` | src/pages/api/transactions/index.ts:45-47 | the lookup finds a user exactly when one with that clerkId exists |
| `TransactionsApi.Store.CreateUser` | src/pages/api/transactions/index.ts:50-56 | creating a user adds it under its clerkId and leaves the transactions alone |
| `TransactionsApi.Store.CreateTransaction` | src/pages/api/transactions/index.ts:68-70 | creating a transaction appends exactly the record for the data under the assigned id |
| `TransactionsApi.Handler` | src/pages/api/transactions/index.ts:7-80 | 401 when there is no user id or it is empty, store untouched; GET: 200 with the user's newest-first listing and its sum, or 500, store untouched; POST: user created (id = clerkId = userId) only when absent, record with `userId` = owner id appended, 201, or 500 on a store failure; other methods: 405, store untouched; store invariant kept |
| `TransactionsApi.PostTwice` | src/pages/api/transactions/index.ts:44-57 | two successful POSTs by one user create that user at most once and add two transactions |

## Left out

- Network I/O (`fetch`), toasts, `window.confirm`, router navigation and the loading/error flags are left out. A response is an input (`Reply`: OK, not OK, or an exception), and so are the confirmation and the fetched list.
- Authentication (`useUser`, `getAuth`) comes from an external identity provider. It is an optional user id.
- The Prisma client and src/lib/prisma.ts are replaced by the `Store` class. Which store call throws is the `StoreFault` parameter, and the id the database assigns is the `newId` parameter.
- `TransactionsApi.Store.Valid` assumes that every user record is created by this route, so its `id` equals its non-empty `clerkId`. Users created by other means are not modelled.
- src/pages/api/transactions/[id].ts (the PUT/DELETE route) is not part of this model. The pages see it only through the `Reply` they get back.
- `parseFloat`, NaN and floating-point amounts are left out: amounts are whole minor units. The daily average's float division and all `toLocaleString` formatting are also left out. For the average, only its divisor is modelled.
- Time zones, daylight saving and the conversion of the stored UTC timestamp to local time are left out: dates are local calendar fields. Unparseable dates ("Invalid Date") are also left out, because every stored date is valid.
- The rule of `new Date(y, m, d)` that maps years 0..99 to 1900..1999 is not modelled, because the selected date comes from the clock.
- `TransactionsApi.ByDateDesc`: the store's order for transactions with equal dates is not specified. The model picks one order (stable), and its contract promises only newest-first and a permutation.
- `TransactionsPage.TransactionsView.EditAmount`, `EditDescription` and `EditPaymentMode` require an open dialog, because their inputs are rendered only while a transaction is being edited.
- `TransactionsPage.TransactionsView.HandleDelete`, `TransactionsPage.TransactionsView.HandleUpdate`, `Dashboard.DashboardPage.HandleDelete`, `TransactionsApi.Handler` and `TransactionsApi.PostTwice` each run as one atomic step on the state as it is when the reply arrives. The page handlers really build the new list from the list they captured when they started, and write it only after `await fetch(...)`. So when two requests overlap, the later reply overwrites the earlier one from a stale list: a deleted row comes back, or an edit is lost. Likewise, two simultaneous first POSTs by one user both find no user record, and the second user creation fails on the unique id, giving a 500 without storing its transaction. Overlapping requests are not modelled.
- `Dashboard.DashboardPage.HandleDelete` models a handler that the dashboard defines but that no element of the page calls (src/pages/dashboard.tsx:131-144); the dashboard's edit handler (src/pages/dashboard.tsx:146) is unreachable in the same way and is not modelled.
- `TransactionsPage.TransactionsView.Displayed` returns no rows where the page's render would throw on a missing list; the error screen and the unmounted component that follow are not modelled.
- `TransactionsApi.PostTwice` requires a non-empty user id, because the route answers 401 for an empty one.
- The dashboard's `totalExpense` state is fetched but never displayed, so it is not modelled.
- JSX markup, styling, animation and chart configuration are left out, as are src/pages/add-expense.tsx, src/components/Navigation.tsx, src/pages/index.tsx and src/pages/_app.tsx.
