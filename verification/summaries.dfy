/** Per-day aggregation of one owner's transactions: the daily summary the
    dashboard shows and the seven-day cash-flow series. */
module Summaries {
  import opened Sequences
  import opened Calendar
  import opened Records

  /** Sum of the amounts, the source's `reduce((sum, t) => sum + t.amount, 0)`. */
  function Sum(ts: seq<Transaction>): real {
    if |ts| == 0 then 0.0 else ts[0].amount + Sum(ts[1..])
  }

  function OfKind(ts: seq<Transaction>, k: TxKind): seq<Transaction> {
    Filter(ts, (t: Transaction) => t.kind == k)
  }

  /** Sum of the amounts of the transactions of kind `k`. */
  function Total(ts: seq<Transaction>, k: TxKind): real {
    Sum(OfKind(ts, k))
  }

  predicate NonNegativeAmounts(ts: seq<Transaction>) {
    forall i :: 0 <= i < |ts| ==> ts[i].amount >= 0.0
  }

  lemma {:induction false} SumConcat(a: seq<Transaction>, b: seq<Transaction>)
    ensures Sum(a + b) == Sum(a) + Sum(b)
  {
    if |a| > 0 {
      assert (a + b)[1..] == a[1..] + b;
      SumConcat(a[1..], b);
    } else {
      assert a + b == b;
    }
  }

  lemma {:induction false} SumNonNegative(ts: seq<Transaction>)
    requires NonNegativeAmounts(ts)
    ensures Sum(ts) >= 0.0
  {
    if |ts| > 0 {
      SumNonNegative(ts[1..]);
    }
  }

  /** Every selection of non-negative amounts has a non-negative total. */
  lemma TotalNonNegative(ts: seq<Transaction>, k: TxKind)
    requires NonNegativeAmounts(ts)
    ensures Total(ts, k) >= 0.0
  {
    var sel := OfKind(ts, k);
    forall i | 0 <= i < |sel| ensures sel[i].amount >= 0.0 {
      assert sel[i] in ts;
    }
    SumNonNegative(sel);
  }

  lemma TotalConcat(a: seq<Transaction>, b: seq<Transaction>, k: TxKind)
    ensures Total(a + b, k) == Total(a, k) + Total(b, k)
  {
    FilterConcat(a, b, (t: Transaction) => t.kind == k);
    SumConcat(OfKind(a, k), OfKind(b, k));
  }

  /** The three kinds split every amount: sales, expenses and investments
      together account for the whole sum. */
  lemma {:induction false} KindsPartitionSum(ts: seq<Transaction>)
    ensures Sum(ts) == Total(ts, Sale) + Total(ts, Expense) + Total(ts, Investment)
  {
    if |ts| > 0 {
      KindsPartitionSum(ts[1..]);
      assert ts == [ts[0]] + ts[1..];
      TotalConcat([ts[0]], ts[1..], Sale);
      TotalConcat([ts[0]], ts[1..], Expense);
      TotalConcat([ts[0]], ts[1..], Investment);
    }
  }

  // ---------------------------------------------------------------------------
  // Daily summary

  /** The owner's transactions dated exactly `date`. */
  function DayTransactions(ts: seq<Transaction>, date: Date, userId: UserId): (r: seq<Transaction>)
    ensures forall t :: t in r <==> t in ts && t.userId == userId && t.date == date
    ensures Selects(r, ts, (t: Transaction) => t.userId == userId && t.date == date)
  {
    FilterSelects(ts, (t: Transaction) => t.userId == userId && t.date == date);
    Filter(ts, (t: Transaction) => t.userId == userId && t.date == date)
  }

  function CalculateDailySummary(ts: seq<Transaction>, date: Date, userId: UserId): (r: DailySummary)
    ensures r.date == date && r.userId == userId
    ensures r.profit == r.totalSales - r.totalExpenses
    ensures NonNegativeAmounts(ts) ==>
      r.totalSales >= 0.0 && r.totalExpenses >= 0.0 && r.totalInvestment >= 0.0
  {
    var day := DayTransactions(ts, date, userId);
    if NonNegativeAmounts(ts) then
      assert NonNegativeAmounts(day) by {
        forall i | 0 <= i < |day| ensures day[i].amount >= 0.0 {
          assert day[i] in ts;
        }
      }
      TotalNonNegative(day, Sale);
      TotalNonNegative(day, Expense);
      TotalNonNegative(day, Investment);
      Summary(day, date, userId)
    else
      Summary(day, date, userId)
  }

  function Summary(day: seq<Transaction>, date: Date, userId: UserId): DailySummary {
    var sales := Total(day, Sale);
    var expenses := Total(day, Expense);
    DailySummary(date, Total(day, Investment), expenses, sales, sales - expenses, userId)
  }

  /** Amount a transaction adds to the total of kind `k` on `date` for
      `userId`: its amount when it matches all three, else nothing. */
  function Contribution(t: Transaction, k: TxKind, date: Date, userId: UserId): real {
    if t.userId == userId && t.date == date && t.kind == k then t.amount else 0.0
  }

  /** Appending one transaction moves each daily total by exactly that
      transaction's contribution: a transaction of another owner or another
      day changes nothing. */
  lemma DailySummaryAppend(ts: seq<Transaction>, t: Transaction, date: Date, userId: UserId)
    ensures CalculateDailySummary(ts + [t], date, userId).totalSales
            == CalculateDailySummary(ts, date, userId).totalSales + Contribution(t, Sale, date, userId)
    ensures CalculateDailySummary(ts + [t], date, userId).totalExpenses
            == CalculateDailySummary(ts, date, userId).totalExpenses + Contribution(t, Expense, date, userId)
    ensures CalculateDailySummary(ts + [t], date, userId).totalInvestment
            == CalculateDailySummary(ts, date, userId).totalInvestment + Contribution(t, Investment, date, userId)
  {
    DailySummaryOfDay(ts, date, userId);
    DailySummaryOfDay(ts + [t], date, userId);
    DayTotalAppend(ts, t, date, userId, Sale);
    DayTotalAppend(ts, t, date, userId, Expense);
    DayTotalAppend(ts, t, date, userId, Investment);
  }

  lemma DayTotalAppend(ts: seq<Transaction>, t: Transaction, date: Date, userId: UserId, k: TxKind)
    ensures Total(DayTransactions(ts + [t], date, userId), k)
            == Total(DayTransactions(ts, date, userId), k) + Contribution(t, k, date, userId)
  {
    FilterConcat(ts, [t], (x: Transaction) => x.userId == userId && x.date == date);
    var day := DayTransactions(ts, date, userId);
    var extra := DayTransactions([t], date, userId);
    TotalConcat(day, extra, k);
    if t.userId == userId && t.date == date {
      assert extra == [t];
      TotalSingle(t, k);
    } else {
      assert extra == [];
    }
  }

  lemma TotalSingle(t: Transaction, k: TxKind)
    ensures Total([t], k) == if t.kind == k then t.amount else 0.0
  {
    assert [t][1..] == [];
    assert Sum([t]) == t.amount + Sum([]);
  }

  // ---------------------------------------------------------------------------
  // Weekly cash flow

  /** One day of the weekly series; `day` is the day number of the date the
      source labels with its weekday name. */
  datatype CashFlowDay = CashFlowDay(day: int, sales: real, expenses: real, profit: real)

  /** The owner's transactions whose date falls on day number `day`. */
  function OnDay(ts: seq<Transaction>, userId: UserId, day: int): (r: seq<Transaction>)
    ensures forall t :: t in r <==> t in ts && t.userId == userId && DayNumber(t.date) == day
  {
    Filter(ts, (t: Transaction) => t.userId == userId && DayNumber(t.date) == day)
  }

  function DayFlow(ts: seq<Transaction>, userId: UserId, day: int): CashFlowDay {
    var onDay := OnDay(ts, userId, day);
    var sales := Total(onDay, Sale);
    var expenses := Total(onDay, Expense);
    CashFlowDay(day, sales, expenses, sales - expenses)
  }

  /** The seven days starting at `weekStart` (the start of the current week). */
  function WeeklyCashFlow(ts: seq<Transaction>, userId: UserId, weekStart: int): (r: seq<CashFlowDay>)
    ensures |r| == 7
    ensures forall i :: 0 <= i < 7 ==> r[i].day == weekStart + i
    ensures forall i :: 0 <= i < 7 ==> r[i].profit == r[i].sales - r[i].expenses
    ensures (forall t :: t in ts && t.userId == userId ==>
               DayNumber(t.date) < weekStart || weekStart + 6 < DayNumber(t.date))
            ==> forall i :: 0 <= i < 7 ==> r[i].sales == 0.0 && r[i].expenses == 0.0 && r[i].profit == 0.0
  {
    var r := seq(7, i => DayFlow(ts, userId, weekStart + i));
    assert forall i :: 0 <= i < 7 ==> r[i] == DayFlow(ts, userId, weekStart + i);
    assert (forall t :: t in ts && t.userId == userId ==>
              DayNumber(t.date) < weekStart || weekStart + 6 < DayNumber(t.date))
           ==> forall i :: 0 <= i < 7 ==> r[i].sales == 0.0 && r[i].expenses == 0.0
    by {
      if forall t :: t in ts && t.userId == userId ==>
           DayNumber(t.date) < weekStart || weekStart + 6 < DayNumber(t.date)
      {
        forall i | 0 <= i < 7 ensures r[i].sales == 0.0 && r[i].expenses == 0.0 {
          var onDay := OnDay(ts, userId, weekStart + i);
          assert forall j :: 0 <= j < |ts| ==> ts[j] in ts;
          FilterNone(ts, (t: Transaction) => t.userId == userId && DayNumber(t.date) == weekStart + i);
          assert OfKind(onDay, Sale) == [] && OfKind(onDay, Expense) == [];
        }
      }
    }
    r
  }

  /** For real dates, "falls on day number DayNumber(d)" and "is dated d"
      select the same transactions. */
  lemma OnDayIsDayTransactions(ts: seq<Transaction>, userId: UserId, d: Date)
    requires ValidDate(d)
    requires forall j :: 0 <= j < |ts| ==> ValidDate(ts[j].date)
    ensures OnDay(ts, userId, DayNumber(d)) == DayTransactions(ts, d, userId)
  {
    forall j | 0 <= j < |ts|
      ensures (ts[j].userId == userId && DayNumber(ts[j].date) == DayNumber(d))
              == (ts[j].userId == userId && ts[j].date == d)
    {
      DayNumberInjective(ts[j].date, d);
    }
    FilterCongruent(ts,
      (t: Transaction) => t.userId == userId && DayNumber(t.date) == DayNumber(d),
      (t: Transaction) => t.userId == userId && t.date == d);
  }

  /** Day `i` of the week agrees with the daily summary of the calendar date
      that falls on that day, provided stored dates are real dates. */
  lemma WeeklyMatchesDaily(ts: seq<Transaction>, userId: UserId, weekStart: int, i: int, d: Date)
    requires 0 <= i < 7
    requires ValidDate(d) && DayNumber(d) == weekStart + i
    requires forall j :: 0 <= j < |ts| ==> ValidDate(ts[j].date)
    ensures WeeklyCashFlow(ts, userId, weekStart)[i].sales == CalculateDailySummary(ts, d, userId).totalSales
    ensures WeeklyCashFlow(ts, userId, weekStart)[i].expenses == CalculateDailySummary(ts, d, userId).totalExpenses
  {
    OnDayIsDayTransactions(ts, userId, d);
    DailySummaryOfDay(ts, d, userId);
    var day := DayTransactions(ts, d, userId);
    var flow := DayFlow(ts, userId, weekStart + i);
    assert flow.sales == Total(day, Sale) && flow.expenses == Total(day, Expense);
    WeekEntry(ts, userId, weekStart, i);
  }

  lemma WeekEntry(ts: seq<Transaction>, userId: UserId, weekStart: int, i: int)
    requires 0 <= i < 7
    ensures WeeklyCashFlow(ts, userId, weekStart)[i] == DayFlow(ts, userId, weekStart + i)
  {
  }

  lemma DailySummaryOfDay(ts: seq<Transaction>, date: Date, userId: UserId)
    ensures CalculateDailySummary(ts, date, userId) == Summary(DayTransactions(ts, date, userId), date, userId)
  {
  }
}
