# Finance Tracker — a verified model of its bookkeeping core

The Finance Tracker is a single-page app for small businesses. It lets a
business record sales, expenses and investments, upload bills and approve
them, set financial goals, and view daily, weekly, monthly and quarterly
figures. All data lives in the browser's key/value storage as four JSON
arrays: transactions, bills, goals and daily summaries. A separate mock user
registry handles signing in.

This project models that bookkeeping core in Dafny as immutable datatypes and
pure functions:

- `Store` (`store.dfy`): the record store. Each collection is read whole,
  changed in memory and written back whole. A key that was never written
  reads as empty.
- `Summaries` (`summaries.dfy`): the daily summary and the seven-day cash-flow
  series.
- `Analytics` (`analytics.dfy`): monthly and quarterly period data, the
  period pickers, the six-month trend, and the expense breakdown by category.
- `Goals` (`goals.dfy`): goal progress over the month before the deadline, the
  status derived from it, goal creation, and the active/completed split.
- `Transactions` (`transactions.dfy`): the transaction form, the search and
  category filter, and today's total.
- `Bills` (`bills.dfy`): saving a bill as a draft and approving it, which
  also records an expense.
- `Auth` (`auth.dfy`): sign-up, login, logout and profile updates over the
  registry and the signed-in profile.
- Supporting modules:
  - `Calendar` (`calendar.dfy`): civil dates and JavaScript's `Date`
    arithmetic, including `MakeDay` with month and day roll-over.
  - `Sequences` (`sequences.dfy`): order-preserving filter, `findIndex`, the
    subsequence relation, and `Selects`, which says that a result keeps exactly
    the elements meeting a condition, each as often as it occurs and in
    order. `Sequences.SelectsUnique` shows that this pins the result.
  - `Text` (`text.dfy`): ASCII case folding and `includes`.
  - `Records` (`records.dfy`): the entities, plus the object-spread update
    patches.
  - `Optional` (`optional.dfy`).

Conventions:

- Dates are `Calendar.Date` triples. Their place in time is
  `Calendar.DayNumber`, which is ECMAScript's MakeDay. So `new Date(y, m, 0)`
  (the last day of the previous month) and `setMonth` roll-over behave as in
  the browser.
- Amounts are exact `real`s.
- The current time, today's date, the start of the week and every generated
  id are parameters.
- A form field that is empty is `None`.
- A goal percentage is a small `Percent` datatype: a finite value, negative
  infinity, or NaN. This way the zero-target case follows JavaScript number
  semantics.

## Model

| member | source | states |
|---|---|---|
| Store.GetTransactions | src/utils/storage.js:10-13 | exactly the stored transactions of that owner, each as often as stored and in stored order (`Selects`); an unwritten collection reads as empty |
| Sequences.SelectsUnique | src/utils/storage.js:10-13 | a selection that keeps order and multiplicity is determined by the collection and the condition: it is the filter's result, so every read above is pinned exactly |
| Store.AddTransaction | src/utils/storage.js:15-19 | the collection grows by one, the new transaction is last, earlier ones are unchanged, and the other collections are untouched |
| Store.UpdateTransaction | src/utils/storage.js:21-28 | only the first transaction with the id changes, to the patch merged over it; with no such id the store is unchanged; other collections are untouched |
| Store.DeleteTransaction | src/utils/storage.js:30-34 | keeps exactly the transactions with another id, each as often as stored and in order, and always writes the collection |
| Store.DeleteTransactionIdempotent | src/utils/storage.js:30-34 | deleting the same id twice is the same as deleting it once |
| Store.GetAfterAddTransaction | src/utils/storage.js:10-19 | an owner's read after an append is the earlier read plus the new transaction when it is theirs, else unchanged |
| Store.EmptyStoreReadsEmpty | src/utils/storage.js:11 | every collection of a store that was never written reads as empty for every owner |
| Store.GetBills | src/utils/storage.js:37-40 | exactly the stored bills of that owner, each as often as stored and in stored order |
| Store.AddBill | src/utils/storage.js:42-46 | append at the end; the rest of the store is unchanged |
| Store.UpdateBill | src/utils/storage.js:48-55 | first bill with the id gets the patch merged over it; an absent id leaves the store unchanged |
| Store.GetGoals | src/utils/storage.js:58-61 | exactly the stored goals of that owner, each as often as stored and in stored order |
| Store.AddGoal | src/utils/storage.js:63-67 | append at the end; the rest of the store is unchanged |
| Store.UpdateGoal | src/utils/storage.js:69-76 | first goal with the id gets the patch merged over it; an absent id leaves the store unchanged |
| Store.GetDailySummaries | src/utils/storage.js:79-82 | exactly the stored summaries of that owner, each as often as stored and in stored order |
| Store.UpdateDailySummary | src/utils/storage.js:84-96 | replaces the first summary for the same date and owner wholesale, or appends; length is unchanged or grows by one; the summary is present afterwards |
| Store.UpdateDailySummaryIdempotent | src/utils/storage.js:84-96 | writing the same summary twice is the same as writing it once |
| Store.UpsertIdempotent | src/utils/storage.js:86-94 | replace-first-or-append with a matching record is idempotent |
| Records.StatusPatchChangesOnlyStatus | src/components/bills/BillUpload.jsx:97 | the `{ status }` update used by approval changes the status and no other field |
| Records.MergeGoalLaws | src/utils/storage.js:73 | in `{ ...goal, ...updates }`, for each of the eight fields, a field present in the update wins and an absent one keeps the goal's value; merging the same update twice equals merging it once |
| Records.EmptyPatchesKeepRecords | src/utils/storage.js:25 | an update object without fields leaves a record unchanged |
| Summaries.DayTransactions | src/utils/calculations.js:4-6 | selects exactly the owner's transactions dated that day, each as often as listed and in list order |
| Summaries.CalculateDailySummary | src/utils/calculations.js:3-30 | echoes the date and owner, profit is sales minus expenses, and with non-negative amounts every total is non-negative |
| Summaries.DailySummaryAppend | src/utils/calculations.js:4-18 | one more transaction moves each daily total by its amount exactly when it has that owner, that day and that kind; otherwise the totals do not move |
| Summaries.KindsPartitionSum | src/utils/calculations.js:8-18 | sales, expenses and investments together account for the sum of all amounts |
| Summaries.WeeklyCashFlow | src/utils/calculations.js:32-63 | seven entries for the consecutive days from the week start; each profit is sales minus expenses; all zero when no owner transaction falls in the week |
| Summaries.WeeklyMatchesDaily | src/utils/calculations.js:42-52 | entry i's sales and expenses equal the daily summary's totals for the date falling on day i |
| Summaries.OnDayIsDayTransactions | src/utils/calculations.js:42-44 | for valid dates, selecting by day number and selecting by calendar date give the same transactions |
| Calendar.DayNumberOrder | src/components/goals/GoalManager.jsx:48-49 | comparing two valid dates as instants is comparing them chronologically by year, month, day |
| Calendar.MonthSpanMembership | src/components/analytics/Analytics.jsx:72-75 | a valid date lies between the first day of month j and the first day after month k exactly when its month is one of j..k |
| Analytics.RangeData | src/components/analytics/Analytics.jsx:72-82 | holds exactly the transactions dated in the range, with their multiplicity and order; sales, expenses and investments are the totals of that kind over them; profit is sales minus expenses |
| Analytics.MonthlyData | src/components/analytics/Analytics.jsx:67-83 | holds exactly the transactions from the month's first through last day, with multiplicity and order, and for a month 1..12 a validly dated transaction is in it exactly when it has that year and month; sales, expenses and investments are per-kind totals over them; profit excludes investments |
| Analytics.QuarterlyData | src/components/analytics/Analytics.jsx:85-101 | holds exactly the transactions from the quarter's first through last day, with multiplicity and order, and for a quarter 1..4 a validly dated transaction is in it exactly when it has that year and a month 3q-2..3q; sales, expenses and investments are per-kind totals over them; profit excludes investments |
| Analytics.MonthBounds | src/components/analytics/Analytics.jsx:69-70 | a month runs from its first calendar day through its last |
| Analytics.QuarterBounds | src/components/analytics/Analytics.jsx:87-88 | quarter q runs from the first day of month 3q-2 through the last day of month 3q |
| Analytics.FourthQuarter | src/components/analytics/Analytics.jsx:87-88 | the fourth quarter is October 1 through December 31 |
| Analytics.LeapFebruary2024 | src/components/analytics/Analytics.jsx:67-75 | February 2024 includes the 29th and excludes March 1 |
| Analytics.ProfitIgnoresInvestments | src/components/analytics/Analytics.jsx:77-80 | removing every investment leaves a period's profit unchanged |
| Analytics.CurrentQuarter | src/components/analytics/Analytics.jsx:62 | the current quarter lies in 1..4 and contains the current month |
| Analytics.DefaultPeriod | src/components/analytics/Analytics.jsx:57-65 | the monthly view opens on the current month, and the quarterly view on the quarter of the current year that contains the current month |
| Analytics.QuarterOptions | src/components/analytics/Analytics.jsx:249-261 | eight entries, the first the current quarter, entry i exactly i quarters back, with quarters in 1..4 |
| Analytics.MonthOptions | src/components/analytics/Analytics.jsx:242-248 | twelve entries, the first the current month, entry i exactly i months back |
| Analytics.MonthOfIndex | src/components/analytics/Analytics.jsx:244-245 | a month index maps to the year and 1-based month that it numbers |
| Analytics.TrendData | src/components/analytics/Analytics.jsx:111-127 | six consecutive months ending at the current one, each with that month's sales, expenses and profit |
| Analytics.CategoryBreakdown | src/components/analytics/Analytics.jsx:129-143 | one entry per distinct expense category (a category appears exactly when some expense has it), each amount the sum of that category's expenses, and all amounts together the expense total |
| Analytics.AccumulateStep | src/components/analytics/Analytics.jsx:133-137 | adding one transaction to a correct running breakdown yields a correct breakdown of the longer list |
| Analytics.BreakdownSumsToPeriodExpenses | src/components/analytics/Analytics.jsx:78 | the breakdown of the selected period sums to that period's expenses |
| Analytics.BreakdownListsCountedCategories | src/components/analytics/Analytics.jsx:411-413 | a category is in the breakdown exactly when the detail table counts at least one expense for it |
| Analytics.CategoryPercentage | src/components/analytics/Analytics.jsx:410 | 0 when the period has no positive expenses; otherwise between 0 and 100 for a share of the expenses, and exactly 100 for all of them |
| Goals.GoalWindow | src/components/goals/GoalManager.jsx:47-50 | exactly the transactions dated from the window start through the deadline, both ends included, with multiplicity and order |
| Goals.GoalWindowLength | src/components/goals/GoalManager.jsx:44-45 | the window from the deadline moved back one month to the deadline is as long as the month before the deadline's month |
| Goals.GoalStartRollsOver | src/components/goals/GoalManager.jsx:44-45 | a March 31, 2023 deadline starts its window on March 3, 2023 (February 31 rolls over) |
| Goals.CurrentAmount | src/components/goals/GoalManager.jsx:52-76 | an expense-reduction amount is never negative, and with non-negative amounts and target it is at most the target; an unknown goal type counts 0 (the exact amounts per kind are stated by Goals.GoalAmountMatchesRange) |
| Goals.CurrentAmountIgnoresOutside | src/components/goals/GoalManager.jsx:47-50 | a transaction dated outside the window never changes a goal's amount |
| Goals.SaleInWindowCounts | src/components/goals/GoalManager.jsx:55-58 | a sale inside the window raises a sales goal by exactly its amount |
| Goals.GoalAmountMatchesRange | src/components/goals/GoalManager.jsx:47-76 | over the same day range the analytics view uses, from one month before the deadline through the deadline: a sales goal counts the sales, a profit goal the profit, and an expense-reduction goal the target minus the expenses, floored at 0 |
| Goals.Percentage | src/components/goals/GoalManager.jsx:78 | the percentage never exceeds 100, is finite for a non-zero target, and is NaN exactly for a zero amount over a zero target |
| Goals.PercentageCapped | src/components/goals/GoalManager.jsx:78 | for a positive target, meeting it shows exactly 100 and falling short shows the exact ratio |
| Goals.StatusByAmounts | src/components/goals/GoalManager.jsx:78-82 | status in terms of the amounts, for each sign of the target (positive target: achieved iff amount at least target, at risk iff below half of it) |
| Goals.CalculateGoalProgress | src/components/goals/GoalManager.jsx:43-85 | the reported amount is the window amount, the percentage is the capped `Percentage` of amount over target, and the status follows the first matching rule, stated as conditions on amount and target |
| Goals.BadgeMatchesStatus | src/components/goals/GoalManager.jsx:346-347 | the completed list's ACHIEVED badge is shown exactly for achieved goals |
| Goals.NewGoal | src/components/goals/GoalManager.jsx:89-99 | a goal is created exactly when someone is signed in and title, target and deadline are filled in; it starts at amount 0, on track, owned by the user |
| Goals.SubmitGoal | src/components/goals/GoalManager.jsx:87-112 | a complete form stores the goal, appends it to the list and resets the form; an incomplete form changes nothing |
| Goals.SubmitKeepsViewInSync | src/components/goals/GoalManager.jsx:101-102 | when the listed goals were the owner's stored goals, they still are after a submission |
| Goals.ActiveGoals | src/components/goals/GoalManager.jsx:131 | exactly the goals whose deadline is not before now, with multiplicity and in list order |
| Goals.CompletedGoals | src/components/goals/GoalManager.jsx:132 | exactly the goals whose deadline is before now, with multiplicity and in list order |
| Goals.ActiveCompletedPartition | src/components/goals/GoalManager.jsx:131-132 | every goal is in exactly one of the two lists, and their lengths add up to the number of goals |
| Goals.ShownCompleted | src/components/goals/GoalManager.jsx:329 | the first min(5, n) of the n completed goals, in order |
| Goals.DaysLeft | src/components/goals/GoalManager.jsx:254 | the whole number of days to the deadline rounded up: the time left is more than one day fewer and at most that many days |
| Goals.Stats | src/components/goals/GoalManager.jsx:146-164 | active and completed goals add up to all goals, achieved plus at-risk never exceed them, and no goals give zero counts |
| Goals.StatsAppend | src/components/goals/GoalManager.jsx:146-164 | one more goal raises the active count exactly when its deadline has not passed, and the achieved or at-risk count exactly when its progress has that status |
| Transactions.Categories | src/components/transactions/TransactionManager.jsx:47-51 | every kind has a non-empty list of category choices |
| Transactions.NewTransaction | src/components/transactions/TransactionManager.jsx:55-64 | created exactly when someone is signed in and amount and description are filled in; carries the form's kind, amount, date and the user's id; an empty category becomes the kind's first choice |
| Transactions.SubmitTransaction | src/components/transactions/TransactionManager.jsx:53-77 | a complete form appends the transaction in storage and puts it first in the list; otherwise nothing changes |
| Transactions.SubmitKeepsSameTransactions | src/components/transactions/TransactionManager.jsx:66-67 | the list and the owner's stored transactions hold the same transactions after a submission when they did before |
| Transactions.FilterTransactions | src/components/transactions/TransactionManager.jsx:79-86 | keeps a transaction exactly when the search text occurs case-insensitively in its description or category, the category filter is "all" or equal, and its kind is the open tab; with multiplicity and in list order |
| Transactions.UnfilteredShowsTab | src/components/transactions/TransactionManager.jsx:80-83 | with an empty search and "all" categories the list is exactly the open tab's transactions |
| Transactions.SearchIgnoresCase | src/components/transactions/TransactionManager.jsx:80-81 | searching for a text and for its lower-case form match the same transactions |
| Transactions.TodayTotalIsDailyFigure | src/components/transactions/TransactionManager.jsx:88-93 | today's total for each kind equals the corresponding total of today's daily summary |
| Text.Lower | src/components/transactions/TransactionManager.jsx:80 | folds exactly the ASCII capitals to lower case, keeping the length |
| Text.ContainsAt | src/components/transactions/TransactionManager.jsx:80-81 | `includes` holds exactly when the needle occurs at some position |
| Bills.SaveBill | src/components/bills/BillUpload.jsx:78-94 | with a user and a file, a draft bill owned by the user is stored and appended to the list; otherwise nothing changes |
| Bills.SaveBillKeepsViewInSync | src/components/bills/BillUpload.jsx:90-91 | the listed bills stay equal to the owner's stored bills after saving, and the new bill is offered for approval |
| Bills.MarkApproved | src/components/bills/BillUpload.jsx:98-100 | bills with the id become approved and every other bill is unchanged |
| Bills.BillExpense | src/components/bills/BillUpload.jsx:105-114 | the recorded expense has the given id, the bill's amount, date and id, the description "Bill from" and the vendor, the category "Business Expense" and the signed-in user's id |
| Bills.ApproveBill | src/components/bills/BillUpload.jsx:96-117 | the stored bill update is the `{ status: approved }` update; the transactions gain the expense of the first listed bill with the id when there is one and someone is signed in, and are otherwise untouched; goals and summaries are untouched; no listed bill with the id is left unapproved |
| Bills.ApproveRecordsOneExpense | src/components/bills/BillUpload.jsx:102-116 | exactly one expense, the first listed bill's `BillExpense`, is appended when the bill is listed and someone is signed in; otherwise the transactions are unchanged |
| Bills.ApprovableBills | src/components/bills/BillUpload.jsx:422-428 | the full bill table offers Approve for exactly the draft bills, with multiplicity and in list order |
| Bills.RecentUploads | src/components/bills/BillUpload.jsx:170 | the card lists the first min(5, n) of the n listed bills, in order |
| Bills.RecentApprovableArePrefix | src/components/bills/BillUpload.jsx:189-192 | the drafts offered on the card are the first drafts offered in the full table, in the same order |
| Bills.ApprovedNotOffered | src/components/bills/BillUpload.jsx:189-192 | after approval no bill with that id is offered for approval |
| Bills.ApproveKeepsBillData | src/components/bills/BillUpload.jsx:98-100 | approval changes only statuses |
| Auth.WithoutPassword | src/context/AuthContext.jsx:31 | the profile keeps every account field except the password |
| Auth.Login | src/context/AuthContext.jsx:23-37 | succeeds exactly when some account has that email and password, signing in the first such; a failure changes nothing; the registry never changes |
| Auth.Signup | src/context/AuthContext.jsx:39-63 | refuses exactly when the email is registered, changing nothing; otherwise appends one account with empty company fields and signs it in |
| Auth.Logout | src/context/AuthContext.jsx:65-68 | no one is signed in afterwards and the registry is unchanged |
| Auth.UpdateUser | src/context/AuthContext.jsx:70-84 | signed out it changes nothing; signed in it patches the profile and only the first account with the profile's id, keeping ids and passwords |
| Auth.SignupKeepsEmailsUnique | src/context/AuthContext.jsx:42-57 | sign-up never registers an email twice |
| Auth.SignupThenLogin | src/context/AuthContext.jsx:26-28 | after sign-up and logout, the same credentials sign in again with the same profile |
| Auth.LoginFindsOwner | src/context/AuthContext.jsx:26-28 | with unique emails, the right password signs in that email's account |
| Auth.UpdateUserKeepsEmailsUnique | src/context/AuthContext.jsx:70-82 | a profile update keeps emails unique when it keeps the email or sets one used only by the signed-in account (ids unique) |

## Left out

- Browser storage I/O and JSON parsing: each collection and the registry are in-memory sequences, and a corrupt stored value is not modelled.
- Time zones and time of day: `new Date('yyyy-MM-dd')` and date-fns formatting are taken to agree on the calendar date, and `endOfMonth`'s 23:59:59.999 is the same day as its midnight.
- Analytics.QuarterlyData: the source compares a transaction's date, parsed as UTC midnight, with quarter bounds built as local midnight (`new Date(year, q * 3, 0)`). East of UTC the quarter's last day therefore falls outside the quarterly view while the monthly view keeps it, and west of UTC the quarter's first day drops out. The model compares calendar days, which matches the source only at UTC+0.
- Analytics.MonthlyData: `startOfMonth` is local midnight too, so west of UTC a month's first day drops out of the monthly view in the same way; the model again compares calendar days.
- Parsing of period strings (`'yyyy-MM'`, `'yyyy-Qn'`) and of numbers typed into forms: periods, amounts and dates arrive already parsed, so a NaN from a malformed field is not modelled.
- Floating-point rounding: amounts are exact reals.
- Currency formatting, chart datasets, labels and icons: presentation only.
- `Date.now()` ids, the current time and the start of the week are parameters; id collisions are not reasoned about.
- The simulated bill extraction behind a timer, and the delayed "Save & Approve" callback that reads state from before the save: both are asynchronous UI timing.
- The drop zone's file-type check and the file chooser: a saved bill receives its file as a parameter.
- Unicode case folding: `Text.Lower` folds ASCII letters only.
- Analytics.CategoryBreakdown: entries are ordered by first occurrence; JavaScript's `Object.entries` lists integer-like category names first, which is not modelled.
- Settings fields beyond the profile (currency, tax rate, financial year) travel through `updateUser` but are not part of `Auth.Profile`.
- Restoring the saved session on page load: it only copies the stored profile into the signed-in state.
- React state timing: a render between a timeframe change and the effect that resets the selected period is not modelled; `Analytics.CurrentData` always reads the period of the matching timeframe.
- Goals.Percentage: a zero target is handled as JavaScript evaluates the code (a positive amount shows 100 and is achieved, a negative one is at risk, zero is NaN and on track), not as a percentage of 0.
