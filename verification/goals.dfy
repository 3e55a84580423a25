/** Goal tracking: the progress of a goal over the month before its
    deadline, the status derived from it, goal creation and the
    active/completed split. */
module Goals {
  import opened Optional
  import opened Sequences
  import opened Calendar
  import opened Records
  import opened Store
  import opened Summaries
  import opened Analytics

  const MillisPerDay: int := 86400000

  // ---------------------------------------------------------------------------
  // The progress window

  /** The deadline moved back one month with `setMonth`: the day of the
      month is kept and overflows into the next month when the previous
      month is shorter (March 31 becomes "February 31", that is March 3 or 2). */
  function GoalStart(deadline: Date): int {
    MakeDay(deadline.year, deadline.month - 2, deadline.day)
  }

  /** The window spans exactly the length of the month before the deadline's
      month, whatever the deadline's day. */
  lemma GoalWindowLength(deadline: Date)
    requires 1 <= deadline.month <= 12
    ensures DayNumber(deadline) - GoalStart(deadline) == DaysInMonth(
      if deadline.month == 1 then deadline.year - 1 else deadline.year,
      if deadline.month == 1 then 12 else deadline.month - 1)
  {
    var k := 12 * deadline.year + deadline.month - 2;
    MonthFirstDayStep(k);
  }

  /** A deadline of March 31, 2023 starts its window on March 3, 2023. */
  lemma GoalStartRollsOver()
    ensures GoalStart(Date(2023, 3, 31)) == DayNumber(Date(2023, 3, 3))
  {
    GoalWindowLength(Date(2023, 3, 31));
  }

  /** The owner's transactions dated from the window start through the
      deadline, both ends included. */
  function GoalWindow(ts: seq<Transaction>, deadline: Date): (r: seq<Transaction>)
    ensures forall t :: t in r <==> t in ts && GoalStart(deadline) <= DayNumber(t.date) <= DayNumber(deadline)
    ensures Selects(r, ts, (t: Transaction) => GoalStart(deadline) <= DayNumber(t.date) <= DayNumber(deadline))
  {
    FilterSelects(ts, (t: Transaction) => GoalStart(deadline) <= DayNumber(t.date) <= DayNumber(deadline));
    Filter(ts, (t: Transaction) => GoalStart(deadline) <= DayNumber(t.date) <= DayNumber(deadline))
  }

  /** The amount achieved so far, by goal kind; a kind the form does not
      offer achieves nothing. */
  function CurrentAmount(ts: seq<Transaction>, g: Goal): (amount: real)
    ensures g.kind == ExpenseReductionGoal ==> amount >= 0.0
    ensures g.kind == ExpenseReductionGoal && NonNegativeAmounts(ts) && g.targetAmount >= 0.0 ==>
      amount <= g.targetAmount
    ensures g.kind.OtherGoal? ==> amount == 0.0
  {
    var window := GoalWindow(ts, g.deadline);
    assert NonNegativeAmounts(ts) ==> Total(window, Expense) >= 0.0 by {
      if NonNegativeAmounts(ts) {
        forall i | 0 <= i < |window| ensures window[i].amount >= 0.0 {
          assert window[i] in ts;
        }
        TotalNonNegative(window, Expense);
      }
    }
    match g.kind
    case SalesGoal => Total(window, Sale)
    case ProfitGoal => Total(window, Sale) - Total(window, Expense)
    case ExpenseReductionGoal =>
      var saved := g.targetAmount - Total(window, Expense);
      if saved > 0.0 then saved else 0.0
    case OtherGoal(_) => 0.0
  }

  /** Every goal kind counts from what the analytics view would report for
      the same day range: sales, profit, or what is left of the target after
      the expenses (never below zero). */
  lemma GoalAmountMatchesRange(ts: seq<Transaction>, g: Goal)
    ensures g.kind == SalesGoal ==>
      CurrentAmount(ts, g) == RangeData(ts, GoalStart(g.deadline), DayNumber(g.deadline)).sales
    ensures g.kind == ProfitGoal ==>
      CurrentAmount(ts, g) == RangeData(ts, GoalStart(g.deadline), DayNumber(g.deadline)).profit
    ensures g.kind == ExpenseReductionGoal ==>
      var left := g.targetAmount - RangeData(ts, GoalStart(g.deadline), DayNumber(g.deadline)).expenses;
      CurrentAmount(ts, g) == if left > 0.0 then left else 0.0
  {
    var lo, hi := GoalStart(g.deadline), DayNumber(g.deadline);
    FilterCongruent(ts,
      (t: Transaction) => GoalStart(g.deadline) <= DayNumber(t.date) <= DayNumber(g.deadline),
      (t: Transaction) => lo <= DayNumber(t.date) <= hi);
  }

  /** A transaction dated outside the window never moves a goal. */
  lemma CurrentAmountIgnoresOutside(ts: seq<Transaction>, t: Transaction, g: Goal)
    requires DayNumber(t.date) < GoalStart(g.deadline) || DayNumber(g.deadline) < DayNumber(t.date)
    ensures CurrentAmount(ts + [t], g) == CurrentAmount(ts, g)
  {
    var p := (x: Transaction) => GoalStart(g.deadline) <= DayNumber(x.date) <= DayNumber(g.deadline);
    FilterConcat(ts, [t], p);
    assert GoalWindow(ts + [t], g.deadline) == GoalWindow(ts, g.deadline);
  }

  /** A sale inside the window raises a sales goal by exactly its amount. */
  lemma SaleInWindowCounts(ts: seq<Transaction>, t: Transaction, g: Goal)
    requires t.kind == Sale && g.kind == SalesGoal
    requires GoalStart(g.deadline) <= DayNumber(t.date) <= DayNumber(g.deadline)
    ensures CurrentAmount(ts + [t], g) == CurrentAmount(ts, g) + t.amount
  {
    var p := (x: Transaction) => GoalStart(g.deadline) <= DayNumber(x.date) <= DayNumber(g.deadline);
    FilterConcat(ts, [t], p);
    var window := GoalWindow(ts, g.deadline);
    assert GoalWindow(ts + [t], g.deadline) == window + [t];
    TotalConcat(window, [t], Sale);
    assert OfKind([t], Sale) == [t];
    assert [t][1..] == [];
    assert Sum([t]) == t.amount + Sum([]);
  }

  // ---------------------------------------------------------------------------
  // Percentage and status

  /** A JavaScript number as the percentage computation can produce it:
      dividing by a zero target gives an infinity or NaN. */
  datatype Percent = Finite(value: real) | NegInfinity | NaN

  /** `Math.min(100, current / target * 100)`: a positive amount over a zero
      target is +Infinity, capped to 100; a negative one is -Infinity; zero
      over zero is NaN, which `Math.min` propagates. */
  function Percentage(current: real, target: real): (p: Percent)
    ensures p.Finite? ==> p.value <= 100.0
    ensures target != 0.0 ==> p.Finite?
    ensures p.NaN? <==> current == 0.0 && target == 0.0
  {
    if target != 0.0 then
      var raw := current / target * 100.0;
      Finite(if raw < 100.0 then raw else 100.0)
    else if current > 0.0 then Finite(100.0)
    else if current < 0.0 then NegInfinity
    else NaN
  }

  /** Meeting or beating a positive target shows exactly 100 percent; short
      of it, the exact ratio. */
  lemma PercentageCapped(current: real, target: real)
    requires target > 0.0
    ensures current >= target ==> Percentage(current, target) == Finite(100.0)
    ensures current < target ==> Percentage(current, target) == Finite(current / target * 100.0)
  {
    var q := current / target;
    assert q * target == current;
    assert (q - 1.0) * target == current - target;
    SignOfProduct(q - 1.0, target);
  }

  /** The first matching rule wins: at least 100 is achieved, below 50 is at
      risk, anything else (NaN included, as every comparison with it is
      false) is on track. */
  function StatusOf(p: Percent): GoalStatus {
    match p
    case Finite(v) => if v >= 100.0 then Achieved else if v < 50.0 then AtRisk else OnTrack
    case NegInfinity => AtRisk
    case NaN => OnTrack
  }

  /** The status in terms of the amounts themselves, for every sign of the
      target. */
  lemma StatusByAmounts(current: real, target: real)
    ensures target > 0.0 ==>
      (StatusOf(Percentage(current, target)) == Achieved <==> current >= target)
      && (StatusOf(Percentage(current, target)) == AtRisk <==> current < target / 2.0)
    ensures target < 0.0 ==>
      (StatusOf(Percentage(current, target)) == Achieved <==> current <= target)
      && (StatusOf(Percentage(current, target)) == AtRisk <==> current > target / 2.0)
    ensures target == 0.0 ==>
      (StatusOf(Percentage(current, target)) == Achieved <==> current > 0.0)
      && (StatusOf(Percentage(current, target)) == AtRisk <==> current < 0.0)
  {
    if target != 0.0 {
      var q := current / target;
      assert q * target == current;
      assert (q - 1.0) * target == current - target;
      assert (q - 0.5) * target == current - target / 2.0;
      SignOfProduct(q - 1.0, target);
      SignOfProduct(q - 0.5, target);
      if target > 0.0 {
        assert q >= 1.0 <==> current >= target;
        assert q < 0.5 <==> current < target / 2.0;
      } else {
        assert q >= 1.0 <==> current <= target;
        assert q < 0.5 <==> current > target / 2.0;
      }
    }
  }

  lemma SignOfProduct(x: real, y: real)
    requires y != 0.0
    ensures x * y > 0.0 <==> (x > 0.0 && y > 0.0) || (x < 0.0 && y < 0.0)
    ensures x * y == 0.0 <==> x == 0.0
  {
  }

  datatype GoalProgress = GoalProgress(currentAmount: real, percentage: Percent, status: GoalStatus)

  /** `calculateGoalProgress(goal)` over the owner's transactions. */
  function CalculateGoalProgress(ts: seq<Transaction>, g: Goal): (r: GoalProgress)
    ensures r.currentAmount == CurrentAmount(ts, g)
    ensures r.percentage == Percentage(r.currentAmount, g.targetAmount)
    ensures g.targetAmount > 0.0 ==>
      (r.status == Achieved <==> r.currentAmount >= g.targetAmount)
      && (r.status == AtRisk <==> r.currentAmount < g.targetAmount / 2.0)
    ensures g.targetAmount < 0.0 ==>
      (r.status == Achieved <==> r.currentAmount <= g.targetAmount)
      && (r.status == AtRisk <==> r.currentAmount > g.targetAmount / 2.0)
    ensures g.targetAmount == 0.0 ==>
      (r.status == Achieved <==> r.currentAmount > 0.0)
      && (r.status == AtRisk <==> r.currentAmount < 0.0)
  {
    var current := CurrentAmount(ts, g);
    var p := Percentage(current, g.targetAmount);
    StatusByAmounts(current, g.targetAmount);
    GoalProgress(current, p, StatusOf(p))
  }

  /** An expense-reduction goal is achieved exactly when the window has no
      positive expense total, given a positive target. */
  lemma ExpenseReductionAchieved(ts: seq<Transaction>, g: Goal)
    requires g.kind == ExpenseReductionGoal && g.targetAmount > 0.0
    ensures CalculateGoalProgress(ts, g).status == Achieved
            <==> Total(GoalWindow(ts, g.deadline), Expense) <= 0.0
  {
  }

  /** The completed list's badge reads ACHIEVED exactly when the status is
      achieved. */
  function CompletedBadgeAchieved(p: GoalProgress): bool {
    p.percentage.Finite? && p.percentage.value >= 100.0
  }

  lemma BadgeMatchesStatus(ts: seq<Transaction>, g: Goal)
    ensures CompletedBadgeAchieved(CalculateGoalProgress(ts, g))
            <==> CalculateGoalProgress(ts, g).status == Achieved
  {
  }

  // ---------------------------------------------------------------------------
  // Creating goals

  /** The form as submitted; an empty target or deadline field is `None`. */
  datatype GoalForm = GoalForm(kind: GoalKind, title: string, targetAmount: Option<real>, deadline: Option<Date>)

  const BlankGoalForm := GoalForm(SalesGoal, "", None, None)

  /** The goal a submission creates; `None` when someone is not signed in or
      a field is empty. */
  function NewGoal(form: GoalForm, user: Option<UserId>, id: RecordId): (r: Option<Goal>)
    ensures r.Some? <==> user.Some? && form.title != "" && form.targetAmount.Some? && form.deadline.Some?
    ensures r.Some? ==>
      r.value.id == id && r.value.kind == form.kind && r.value.title == form.title
      && r.value.targetAmount == form.targetAmount.value && r.value.deadline == form.deadline.value
      && r.value.currentAmount == 0.0 && r.value.status == OnTrack && r.value.userId == user.value
  {
    if user.Some? && form.title != "" && form.targetAmount.Some? && form.deadline.Some? then
      Some(Goal(id, form.kind, form.title, form.targetAmount.value, 0.0, form.deadline.value, OnTrack, user.value))
    else None
  }

  /** The view's state: the goals it lists and the open form. */
  datatype GoalView = GoalView(goals: seq<Goal>, form: GoalForm, showForm: bool)

  /** `handleSubmit`: store the new goal, append it to the list, reset and
      close the form; an incomplete form changes nothing. */
  function SubmitGoal(st: Storage, v: GoalView, user: Option<UserId>, id: RecordId): (r: (Storage, GoalView))
    ensures NewGoal(v.form, user, id).None? ==> r == (st, v)
    ensures NewGoal(v.form, user, id).Some? ==>
      var g := NewGoal(v.form, user, id).value;
      r.0 == AddGoal(st, g) && r.1 == GoalView(v.goals + [g], BlankGoalForm, false)
  {
    match NewGoal(v.form, user, id)
    case None => (st, v)
    case Some(g) => (AddGoal(st, g), GoalView(v.goals + [g], BlankGoalForm, false))
  }

  /** Submitting keeps the listed goals in step with the stored ones. */
  lemma SubmitKeepsViewInSync(st: Storage, v: GoalView, u: UserId, id: RecordId)
    requires v.goals == GetGoals(st, u)
    ensures SubmitGoal(st, v, Some(u), id).1.goals == GetGoals(SubmitGoal(st, v, Some(u), id).0, u)
  {
    match NewGoal(v.form, Some(u), id)
    case None =>
    case Some(g) =>
      FilterConcat(Read(st.goals), [g], (x: Goal) => x.userId == u);
  }

  // ---------------------------------------------------------------------------
  // Active and completed goals

  /** The deadline's instant in milliseconds (midnight at the start of the
      deadline day). Instants here count from day 0 of `Calendar.DayNumber`,
      not from the Unix epoch that `Date.now()` uses; `now` is taken on the
      same scale, so only the difference between the two matters. */
  function DeadlineInstant(g: Goal): int {
    DayNumber(g.deadline) * MillisPerDay
  }

  function ActiveGoals(goals: seq<Goal>, now: int): (r: seq<Goal>)
    ensures forall g :: g in r <==> g in goals && DeadlineInstant(g) >= now
    ensures Selects(r, goals, (g: Goal) => DeadlineInstant(g) >= now)
  {
    FilterSelects(goals, (g: Goal) => DeadlineInstant(g) >= now);
    Filter(goals, (g: Goal) => DeadlineInstant(g) >= now)
  }

  function CompletedGoals(goals: seq<Goal>, now: int): (r: seq<Goal>)
    ensures forall g :: g in r <==> g in goals && DeadlineInstant(g) < now
    ensures Selects(r, goals, (g: Goal) => DeadlineInstant(g) < now)
  {
    FilterSelects(goals, (g: Goal) => DeadlineInstant(g) < now);
    Filter(goals, (g: Goal) => DeadlineInstant(g) < now)
  }

  /** Every goal is listed exactly once: active and completed split the
      goals, and none is in both. */
  lemma ActiveCompletedPartition(goals: seq<Goal>, now: int)
    ensures |ActiveGoals(goals, now)| + |CompletedGoals(goals, now)| == |goals|
    ensures forall g :: g in goals ==> (g in ActiveGoals(goals, now) <==> g !in CompletedGoals(goals, now))
  {
    FilterDisjointLength(goals, (g: Goal) => DeadlineInstant(g) >= now, (g: Goal) => DeadlineInstant(g) < now);
  }

  /** The completed list shows at most five goals, the first five completed. */
  function ShownCompleted(goals: seq<Goal>, now: int): (r: seq<Goal>)
    ensures |r| == if |CompletedGoals(goals, now)| < 5 then |CompletedGoals(goals, now)| else 5
    ensures r <= CompletedGoals(goals, now)
    ensures |CompletedGoals(goals, now)| <= 5 ==> r == CompletedGoals(goals, now)
  {
    var completed := CompletedGoals(goals, now);
    if |completed| <= 5 then completed else completed[..5]
  }

  /** Whole days until the deadline, rounded up (`Math.ceil`). */
  function DaysLeft(g: Goal, now: int): (days: int)
    ensures (days - 1) * MillisPerDay < DeadlineInstant(g) - now <= days * MillisPerDay
  {
    -((now - DeadlineInstant(g)) / MillisPerDay)
  }

  /** The statistics cards: active count, and the achieved and at-risk counts
      over all goals. */
  datatype GoalStats = GoalStats(active: nat, achieved: nat, atRisk: nat)

  function Stats(ts: seq<Transaction>, goals: seq<Goal>, now: int): (r: GoalStats)
    ensures r.active + |CompletedGoals(goals, now)| == |goals|
    ensures r.achieved + r.atRisk <= |goals|
    ensures goals == [] ==> r == GoalStats(0, 0, 0)
  {
    ActiveCompletedPartition(goals, now);
    var achieved := Filter(goals, (g: Goal) => CalculateGoalProgress(ts, g).status == Achieved);
    var atRisk := Filter(goals, (g: Goal) => CalculateGoalProgress(ts, g).status == AtRisk);
    FilterDisjointLength(goals,
      (g: Goal) => CalculateGoalProgress(ts, g).status == Achieved,
      (g: Goal) => CalculateGoalProgress(ts, g).status == AtRisk);
    GoalStats(|ActiveGoals(goals, now)|, |achieved|, |atRisk|)
  }

  /** One more goal raises the active count when its deadline has not
      passed, and the achieved or the at-risk count when its progress has
      that status; the other counts stay. */
  lemma StatsAppend(ts: seq<Transaction>, goals: seq<Goal>, g: Goal, now: int)
    ensures var before, after := Stats(ts, goals, now), Stats(ts, goals + [g], now);
      var status := CalculateGoalProgress(ts, g).status;
      after.active == before.active + (if DeadlineInstant(g) >= now then 1 else 0)
      && after.achieved == before.achieved + (if status == Achieved then 1 else 0)
      && after.atRisk == before.atRisk + (if status == AtRisk then 1 else 0)
  {
    FilterConcat(goals, [g], (x: Goal) => DeadlineInstant(x) >= now);
    FilterConcat(goals, [g], (x: Goal) => CalculateGoalProgress(ts, x).status == Achieved);
    FilterConcat(goals, [g], (x: Goal) => CalculateGoalProgress(ts, x).status == AtRisk);
  }
}
