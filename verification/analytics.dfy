/** The reporting views: monthly and quarterly period data, the period
    pickers, the six-month trend and the expense breakdown by category. The
    transactions given to these functions are the signed-in owner's. */
module Analytics {
  import opened Sequences
  import opened Calendar
  import opened Records
  import opened Summaries

  /** Totals over a date range, plus the transactions that fell in it. */
  datatype PeriodData = PeriodData(
    sales: real,
    expenses: real,
    investments: real,
    profit: real,
    transactions: seq<Transaction>)

  /** The transactions dated in the inclusive day range `[lo, hi]`. */
  function InRange(ts: seq<Transaction>, lo: int, hi: int): seq<Transaction> {
    Filter(ts, (t: Transaction) => lo <= DayNumber(t.date) <= hi)
  }

  /** Filter by range, then total each kind; investments are reported but do
      not enter the profit. */
  function RangeData(ts: seq<Transaction>, lo: int, hi: int): (r: PeriodData)
    ensures forall t :: t in r.transactions <==> t in ts && lo <= DayNumber(t.date) <= hi
    ensures Selects(r.transactions, ts, (t: Transaction) => lo <= DayNumber(t.date) <= hi)
    ensures r.sales == Total(r.transactions, Sale)
    ensures r.expenses == Total(r.transactions, Expense)
    ensures r.investments == Total(r.transactions, Investment)
    ensures r.profit == r.sales - r.expenses
  {
    var matched := InRange(ts, lo, hi);
    FilterSelects(ts, (t: Transaction) => lo <= DayNumber(t.date) <= hi);
    var sales := Total(matched, Sale);
    var expenses := Total(matched, Expense);
    PeriodData(sales, expenses, Total(matched, Investment), sales - expenses, matched)
  }

  // ---------------------------------------------------------------------------
  // Months and quarters

  /** `startOfMonth(new Date(year, month - 1))`. */
  function MonthStart(year: int, month: int): int {
    MakeDay(year, month - 1, 1)
  }

  /** `endOfMonth(new Date(year, month - 1))`: day 0 of the following month. */
  function MonthEnd(year: int, month: int): int {
    MakeDay(year, month, 0)
  }

  /** `new Date(year, (quarter - 1) * 3, 1)`. */
  function QuarterStart(year: int, quarter: int): int {
    MakeDay(year, (quarter - 1) * 3, 1)
  }

  /** `new Date(year, quarter * 3, 0)`: the last day of the quarter's last month. */
  function QuarterEnd(year: int, quarter: int): int {
    MakeDay(year, quarter * 3, 0)
  }

  /** A month runs from its first to its last calendar day. */
  lemma MonthBounds(year: int, month: int)
    requires 1 <= month <= 12
    ensures MonthStart(year, month) == DayNumber(Date(year, month, 1))
    ensures MonthEnd(year, month) == DayNumber(Date(year, month, DaysInMonth(year, month)))
  {
    var d := Date(year, month, 1);
    MonthIndexOfDate(d);
    MonthFirstDayStep(MonthIndexOf(d));
  }

  /** Quarter q runs from the first day of month 3q - 2 to the last day of
      month 3q of the same year. */
  lemma QuarterBounds(year: int, quarter: int)
    requires 1 <= quarter <= 4
    ensures QuarterStart(year, quarter) == DayNumber(Date(year, 3 * quarter - 2, 1))
    ensures QuarterEnd(year, quarter) == DayNumber(Date(year, 3 * quarter, DaysInMonth(year, 3 * quarter)))
  {
    MonthBounds(year, 3 * quarter);
  }

  /** The fourth quarter is October 1 through December 31. */
  lemma FourthQuarter(year: int)
    ensures QuarterStart(year, 4) == DayNumber(Date(year, 10, 1))
    ensures QuarterEnd(year, 4) == DayNumber(Date(year, 12, 31))
  {
    QuarterBounds(year, 4);
  }

  /** `getMonthlyData('yyyy-MM')`. For a real month, a transaction with a
      real date is in the period exactly when it is dated in that year and
      month. */
  function MonthlyData(ts: seq<Transaction>, year: int, month: int): (r: PeriodData)
    ensures r.sales == Total(r.transactions, Sale)
    ensures r.expenses == Total(r.transactions, Expense)
    ensures r.investments == Total(r.transactions, Investment)
    ensures r.profit == r.sales - r.expenses
    ensures Selects(r.transactions, ts,
      (t: Transaction) => MonthStart(year, month) <= DayNumber(t.date) <= MonthEnd(year, month))
    ensures 1 <= month <= 12 ==>
      forall t: Transaction | ValidDate(t.date) ::
        t in r.transactions <==> t in ts && t.date.year == year && t.date.month == month
  {
    var r := RangeData(ts, MonthStart(year, month), MonthEnd(year, month));
    assert 1 <= month <= 12 ==>
      forall t: Transaction | ValidDate(t.date) ::
        t in r.transactions <==> t in ts && t.date.year == year && t.date.month == month
    by {
      if 1 <= month <= 12 {
        forall t: Transaction | ValidDate(t.date)
          ensures t in r.transactions <==> t in ts && t.date.year == year && t.date.month == month
        {
          var k := 12 * year + month - 1;
          MonthSpanMembership(t.date, k, k);
        }
      }
    }
    r
  }

  /** `getQuarterlyData('yyyy-Qn')`. For quarters 1 to 4, a transaction with
      a real date is in the period exactly when it is dated in that year in
      one of months 3q - 2 .. 3q. */
  function QuarterlyData(ts: seq<Transaction>, year: int, quarter: int): (r: PeriodData)
    ensures r.sales == Total(r.transactions, Sale)
    ensures r.expenses == Total(r.transactions, Expense)
    ensures r.investments == Total(r.transactions, Investment)
    ensures r.profit == r.sales - r.expenses
    ensures Selects(r.transactions, ts,
      (t: Transaction) => QuarterStart(year, quarter) <= DayNumber(t.date) <= QuarterEnd(year, quarter))
    ensures 1 <= quarter <= 4 ==>
      forall t: Transaction | ValidDate(t.date) ::
        t in r.transactions
        <==> t in ts && t.date.year == year && 3 * quarter - 2 <= t.date.month <= 3 * quarter
  {
    var r := RangeData(ts, QuarterStart(year, quarter), QuarterEnd(year, quarter));
    assert 1 <= quarter <= 4 ==>
      forall t: Transaction | ValidDate(t.date) ::
        t in r.transactions
        <==> t in ts && t.date.year == year && 3 * quarter - 2 <= t.date.month <= 3 * quarter
    by {
      if 1 <= quarter <= 4 {
        forall t: Transaction | ValidDate(t.date)
          ensures t in r.transactions
                  <==> t in ts && t.date.year == year && 3 * quarter - 2 <= t.date.month <= 3 * quarter
        {
          MonthSpanMembership(t.date, 12 * year + 3 * quarter - 3, 12 * year + 3 * quarter - 1);
        }
      }
    }
    r
  }

  /** February 2024 includes its 29th and stops before March 1. */
  lemma LeapFebruary2024(ts: seq<Transaction>, t: Transaction)
    requires t in ts
    ensures t.date == Date(2024, 2, 29) ==> t in MonthlyData(ts, 2024, 2).transactions
    ensures t.date == Date(2024, 3, 1) ==> t !in MonthlyData(ts, 2024, 2).transactions
  {
    assert ValidDate(Date(2024, 2, 29)) && ValidDate(Date(2024, 3, 1));
  }

  /** Profit ignores investments: dropping every investment leaves the
      profit of a range unchanged. */
  lemma ProfitIgnoresInvestments(ts: seq<Transaction>, lo: int, hi: int)
    ensures RangeData(Filter(ts, (t: Transaction) => t.kind != Investment), lo, hi).profit
            == RangeData(ts, lo, hi).profit
  {
    var noInv := Filter(ts, (t: Transaction) => t.kind != Investment);
    var inRange := (t: Transaction) => lo <= DayNumber(t.date) <= hi;
    var notInv := (t: Transaction) => t.kind != Investment;
    FilterFilter(ts, notInv, inRange, (t: Transaction) => t.kind != Investment && inRange(t));
    FilterFilter(ts, inRange, notInv, (t: Transaction) => t.kind != Investment && inRange(t));
    var m := InRange(ts, lo, hi);
    FilterFilter(m, notInv, (t: Transaction) => t.kind == Sale, (t: Transaction) => t.kind == Sale);
    FilterFilter(m, notInv, (t: Transaction) => t.kind == Expense, (t: Transaction) => t.kind == Expense);
  }

  // ---------------------------------------------------------------------------
  // Period pickers

  datatype YearMonth = YearMonth(year: int, month: int)
  datatype YearQuarter = YearQuarter(year: int, quarter: int)

  /** The year and 1-based month of the absolute month index `k`. */
  function MonthOfIndex(k: int): (r: YearMonth)
    ensures 1 <= r.month <= 12
    ensures 12 * r.year + r.month - 1 == k
  {
    YearMonth(k / 12, k % 12 + 1)
  }

  /** `Math.floor(monthIndex / 3) + 1` for the current month index 0..11. */
  function CurrentQuarter(monthIndex: int): (q: int)
    requires 0 <= monthIndex < 12
    ensures 1 <= q <= 4
    ensures 3 * (q - 1) <= monthIndex < 3 * q
  {
    monthIndex / 3 + 1
  }

  /** Entry `i` of the quarterly picker, with the source's wrap-around of
      non-positive quarters into the previous year. */
  function QuarterOption(year: int, quarter: int, i: nat): YearQuarter {
    var targetQuarter := quarter - i % 4;
    var targetYear := year - i / 4;
    var adjustedQuarter := if targetQuarter <= 0 then targetQuarter + 4 else targetQuarter;
    var adjustedYear := if targetQuarter <= 0 then targetYear - 1 else targetYear;
    YearQuarter(adjustedYear, adjustedQuarter)
  }

  /** The quarterly picker: eight quarters, entry i exactly i quarters before
      the current one. */
  function QuarterOptions(year: int, monthIndex: int): (r: seq<YearQuarter>)
    requires 0 <= monthIndex < 12
    ensures |r| == 8
    ensures r[0] == YearQuarter(year, CurrentQuarter(monthIndex))
    ensures forall i :: 0 <= i < 8 ==>
      1 <= r[i].quarter <= 4
      && 4 * r[i].year + r[i].quarter - 1 == 4 * year + CurrentQuarter(monthIndex) - 1 - i
  {
    var q := CurrentQuarter(monthIndex);
    seq(8, i requires 0 <= i => QuarterOption(year, q, i))
  }

  /** The monthly picker: twelve months, entry i exactly i months back. */
  function MonthOptions(year: int, monthIndex: int): (r: seq<YearMonth>)
    requires 0 <= monthIndex < 12
    ensures |r| == 12
    ensures r[0] == YearMonth(year, monthIndex + 1)
    ensures forall i :: 0 <= i < 12 ==>
      1 <= r[i].month <= 12 && 12 * r[i].year + r[i].month - 1 == 12 * year + monthIndex - i
  {
    seq(12, i => MonthOfIndex(12 * year + monthIndex - i))
  }

  /** The period selected when the view opens or the timeframe changes. */
  datatype Period = MonthPeriod(year: int, month: int) | QuarterPeriod(year: int, quarter: int)

  datatype Timeframe = Monthly | Quarterly

  function DefaultPeriod(tf: Timeframe, year: int, monthIndex: int): (p: Period)
    requires 0 <= monthIndex < 12
    ensures tf == Monthly ==> p == MonthPeriod(year, monthIndex + 1)
    ensures tf == Quarterly ==>
      p.QuarterPeriod? && p.year == year && 1 <= p.quarter <= 4
      && 3 * (p.quarter - 1) <= monthIndex < 3 * p.quarter
  {
    match tf
    case Monthly => MonthPeriod(year, monthIndex + 1)
    case Quarterly => QuarterPeriod(year, CurrentQuarter(monthIndex))
  }

  /** `getCurrentData()` for the selected period. */
  function CurrentData(ts: seq<Transaction>, p: Period): PeriodData {
    match p
    case MonthPeriod(y, m) => MonthlyData(ts, y, m)
    case QuarterPeriod(y, q) => QuarterlyData(ts, y, q)
  }

  // ---------------------------------------------------------------------------
  // Trend

  datatype TrendPoint = TrendPoint(year: int, month: int, sales: real, expenses: real, profit: real)

  /** The six months ending with the current one, oldest first. */
  function TrendData(ts: seq<Transaction>, year: int, monthIndex: int): (r: seq<TrendPoint>)
    requires 0 <= monthIndex < 12
    ensures |r| == 6
    ensures r[5].year == year && r[5].month == monthIndex + 1
    ensures forall k :: 0 <= k < 6 ==>
      1 <= r[k].month <= 12 && 12 * r[k].year + r[k].month - 1 == 12 * year + monthIndex - 5 + k
    ensures forall k :: 0 <= k < 6 ==>
      r[k].profit == r[k].sales - r[k].expenses
      && r[k].sales == MonthlyData(ts, r[k].year, r[k].month).sales
      && r[k].expenses == MonthlyData(ts, r[k].year, r[k].month).expenses
  {
    var r := seq(6, k => TrendAt(ts, MonthOfIndex(12 * year + monthIndex - 5 + k)));
    assert forall k :: 0 <= k < 6 ==> r[k] == TrendAt(ts, MonthOfIndex(12 * year + monthIndex - 5 + k));
    r
  }

  function TrendAt(ts: seq<Transaction>, ym: YearMonth): TrendPoint {
    var data := MonthlyData(ts, ym.year, ym.month);
    TrendPoint(ym.year, ym.month, data.sales, data.expenses, data.profit)
  }

  // ---------------------------------------------------------------------------
  // Expense breakdown by category

  datatype CategoryAmount = CategoryAmount(category: string, amount: real)

  /** The expense transactions of category `c`. */
  function ExpensesIn(ts: seq<Transaction>, c: string): seq<Transaction> {
    Filter(ts, (t: Transaction) => t.kind == Expense && t.category == c)
  }

  function CategorySum(ts: seq<Transaction>, c: string): real {
    Sum(ExpensesIn(ts, c))
  }

  function SumAmounts(es: seq<CategoryAmount>): real {
    if |es| == 0 then 0.0 else es[0].amount + SumAmounts(es[1..])
  }

  function CategoriesOf(es: seq<CategoryAmount>): seq<string> {
    seq(|es|, i requires 0 <= i < |es| => es[i].category)
  }

  function ExpenseCategories(ts: seq<Transaction>): set<string> {
    set t | t in ts && t.kind == Expense :: t.category
  }

  predicate DistinctCategories(es: seq<CategoryAmount>) {
    forall i, j :: 0 <= i < j < |es| ==> es[i].category != es[j].category
  }

  /** One step of the `forEach`: add an expense's amount to its category's
      running total, creating the entry (at the end) on first sight. */
  function Accumulate(acc: seq<CategoryAmount>, t: Transaction): seq<CategoryAmount> {
    if t.kind != Expense then acc
    else match FirstIndex(acc, (e: CategoryAmount) => e.category == t.category)
      case None => acc + [CategoryAmount(t.category, t.amount)]
      case Some(i) => acc[i := CategoryAmount(t.category, acc[i].amount + t.amount)]
  }

  /** `generateCategoryBreakdown` over the period's transactions: one entry
      per expense category, in order of first occurrence. */
  function CategoryBreakdown(ts: seq<Transaction>): (r: seq<CategoryAmount>)
    ensures DistinctCategories(r)
    ensures forall c :: c in CategoriesOf(r) <==> c in ExpenseCategories(ts)
    ensures forall i :: 0 <= i < |r| ==> r[i].amount == CategorySum(ts, r[i].category)
    ensures SumAmounts(r) == Total(ts, Expense)
  {
    if |ts| == 0 then []
    else
      var init := ts[..|ts| - 1];
      var t := ts[|ts| - 1];
      var acc := CategoryBreakdown(init);
      assert ts == init + [t];
      AccumulateStep(init, t, acc);
      Accumulate(acc, t)
  }

  /** `acc` is a correct breakdown of the expenses in `ts`. */
  ghost predicate Tallies(acc: seq<CategoryAmount>, ts: seq<Transaction>) {
    DistinctCategories(acc)
    && (forall c :: c in CategoriesOf(acc) <==> c in ExpenseCategories(ts))
    && (forall i :: 0 <= i < |acc| ==> acc[i].amount == CategorySum(ts, acc[i].category))
    && SumAmounts(acc) == Total(ts, Expense)
  }

  lemma AccumulateStep(init: seq<Transaction>, t: Transaction, acc: seq<CategoryAmount>)
    requires Tallies(acc, init)
    ensures Tallies(Accumulate(acc, t), init + [t])
  {
    if t.kind == Expense {
      match FirstIndex(acc, (e: CategoryAmount) => e.category == t.category)
      case None =>
        assert t.category !in CategoriesOf(acc);
        AccumulateNew(init, t, acc);
      case Some(i) =>
        AccumulateExisting(init, t, acc, i);
    } else {
      AccumulateOther(init, t, acc);
    }
  }

  lemma AccumulateOther(init: seq<Transaction>, t: Transaction, acc: seq<CategoryAmount>)
    requires Tallies(acc, init) && t.kind != Expense
    ensures Tallies(acc, init + [t])
  {
    TotalConcat(init, [t], Expense);
    assert ExpenseCategories(init + [t]) == ExpenseCategories(init);
    forall c {
      CategorySumAppend(init, t, c);
    }
  }

  lemma AccumulateNew(init: seq<Transaction>, t: Transaction, acc: seq<CategoryAmount>)
    requires Tallies(acc, init) && t.kind == Expense && t.category !in CategoriesOf(acc)
    ensures Tallies(acc + [CategoryAmount(t.category, t.amount)], init + [t])
  {
    var e := CategoryAmount(t.category, t.amount);
    var r := acc + [e];
    TotalConcat(init, [t], Expense);
    assert OfKind([t], Expense) == [t];
    assert [t][1..] == [];
    SumAmountsAppend(acc, e);
    assert ExpenseCategories(init + [t]) == ExpenseCategories(init) + {t.category};
    assert CategoriesOf(r) == CategoriesOf(acc) + [t.category];
    forall c {
      CategorySumAppend(init, t, c);
    }
    assert forall j :: 0 <= j < |init| ==> init[j] in init;
    FilterNone(init, (x: Transaction) => x.kind == Expense && x.category == t.category);
    assert CategorySum(init, t.category) == 0.0;
    assert forall j :: 0 <= j < |acc| ==> CategoriesOf(acc)[j] == acc[j].category;
    assert DistinctCategories(r);
    assert forall c :: c in CategoriesOf(r) <==> c in ExpenseCategories(init + [t]);
    assert forall j :: 0 <= j < |r| ==> r[j].amount == CategorySum(init + [t], r[j].category);
    assert SumAmounts(r) == Total(init + [t], Expense);
  }

  lemma AccumulateExisting(init: seq<Transaction>, t: Transaction, acc: seq<CategoryAmount>, i: nat)
    requires Tallies(acc, init) && t.kind == Expense
    requires i < |acc| && acc[i].category == t.category
    ensures Tallies(acc[i := CategoryAmount(t.category, acc[i].amount + t.amount)], init + [t])
  {
    var e := CategoryAmount(t.category, acc[i].amount + t.amount);
    var r := acc[i := e];
    TotalConcat(init, [t], Expense);
    assert OfKind([t], Expense) == [t];
    assert [t][1..] == [];
    assert Sum([t]) == t.amount + Sum([]);
    assert Total([t], Expense) == t.amount;
    SumAmountsUpdate(acc, i, e);
    assert ExpenseCategories(init + [t]) == ExpenseCategories(init) + {t.category};
    assert CategoriesOf(r) == CategoriesOf(acc);
    assert CategoriesOf(acc)[i] == t.category;
    forall c {
      CategorySumAppend(init, t, c);
    }
    assert DistinctCategories(r);
    assert forall c :: c in CategoriesOf(r) <==> c in ExpenseCategories(init + [t]);
    assert forall j :: 0 <= j < |r| ==> r[j].amount == CategorySum(init + [t], r[j].category);
    assert SumAmounts(r) == Total(init + [t], Expense);
  }

  lemma CategorySumAppend(ts: seq<Transaction>, t: Transaction, c: string)
    ensures CategorySum(ts + [t], c)
            == CategorySum(ts, c) + (if t.kind == Expense && t.category == c then t.amount else 0.0)
  {
    FilterConcat(ts, [t], (x: Transaction) => x.kind == Expense && x.category == c);
    SumConcat(ExpensesIn(ts, c), ExpensesIn([t], c));
  }

  lemma {:induction false} SumAmountsAppend(es: seq<CategoryAmount>, e: CategoryAmount)
    ensures SumAmounts(es + [e]) == SumAmounts(es) + e.amount
  {
    if |es| > 0 {
      assert (es + [e])[1..] == es[1..] + [e];
      SumAmountsAppend(es[1..], e);
    }
  }

  lemma {:induction false} SumAmountsUpdate(es: seq<CategoryAmount>, i: nat, e: CategoryAmount)
    requires i < |es|
    ensures SumAmounts(es[i := e]) == SumAmounts(es) - es[i].amount + e.amount
  {
    if i > 0 {
      assert es[i := e][1..] == es[1..][i - 1 := e];
      SumAmountsUpdate(es[1..], i - 1, e);
    }
  }

  /** The detail table's transaction count for a category. */
  function CategoryCount(ts: seq<Transaction>, c: string): nat {
    |ExpensesIn(ts, c)|
  }

  /** A category appears in the breakdown exactly when the detail table
      would count at least one expense for it. */
  lemma BreakdownListsCountedCategories(ts: seq<Transaction>, c: string)
    ensures c in CategoriesOf(CategoryBreakdown(ts)) <==> CategoryCount(ts, c) > 0
  {
    var sel := ExpensesIn(ts, c);
    if CategoryCount(ts, c) > 0 {
      assert sel[0] in sel;
      assert sel[0] in ts && sel[0].kind == Expense && sel[0].category == c;
    }
    if c in ExpenseCategories(ts) {
      var t :| t in ts && t.kind == Expense && t.category == c;
      assert t in sel;
    }
  }

  /** The breakdown of the selected period accounts for exactly the
      period's expenses. */
  lemma BreakdownSumsToPeriodExpenses(ts: seq<Transaction>, p: Period)
    ensures SumAmounts(CategoryBreakdown(CurrentData(ts, p).transactions)) == CurrentData(ts, p).expenses
  {
    match p
    case MonthPeriod(y, m) =>
      var lo, hi := MonthStart(y, m), MonthEnd(y, m);
      assert CurrentData(ts, p) == RangeData(ts, lo, hi);
    case QuarterPeriod(y, q) =>
      var lo, hi := QuarterStart(y, q), QuarterEnd(y, q);
      assert CurrentData(ts, p) == RangeData(ts, lo, hi);
  }

  /** The detail table's share of a category in the period's expenses; 0
      when the period has no expenses. */
  function CategoryPercentage(amount: real, expenses: real): (p: real)
    ensures expenses <= 0.0 ==> p == 0.0
    ensures expenses > 0.0 && 0.0 <= amount <= expenses ==> 0.0 <= p <= 100.0
    ensures expenses > 0.0 && amount == expenses ==> p == 100.0
  {
    if expenses > 0.0 then amount / expenses * 100.0 else 0.0
  }
}
