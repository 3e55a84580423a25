/** The daily tracking view: adding a sale, expense or investment, the
    searchable and filterable list, and today's total for the open tab. */
module Transactions {
  import opened Optional
  import opened Sequences
  import opened Calendar
  import opened Records
  import opened Store
  import opened Summaries
  import opened Text

  /** The category choices offered for each kind. */
  function Categories(kind: TxKind): (cs: seq<string>)
    ensures |cs| > 0
  {
    match kind
    case Investment => ["Equipment", "Technology", "Marketing", "Training", "Research"]
    case Expense => ["Office Supplies", "Utilities", "Travel", "Meals", "Software", "Services"]
    case Sale => ["Product Sales", "Service Revenue", "Consulting", "Licensing", "Other Revenue"]
  }

  /** The form as submitted; an empty amount field is `None`. */
  datatype TxForm = TxForm(kind: TxKind, amount: Option<real>, description: string, category: string, date: Date)

  /** The transaction a submission creates; `None` when someone is not
      signed in or the amount or description is empty. An empty category
      falls back to the kind's first choice. */
  function NewTransaction(form: TxForm, user: Option<UserId>, id: RecordId): (r: Option<Transaction>)
    ensures r.Some? <==> user.Some? && form.amount.Some? && form.description != ""
    ensures r.Some? ==>
      r.value.id == id && r.value.kind == form.kind && r.value.amount == form.amount.value
      && r.value.description == form.description && r.value.date == form.date
      && r.value.billId.None? && r.value.userId == user.value
      && (form.category != "" ==> r.value.category == form.category)
      && (form.category == "" ==> r.value.category == Categories(form.kind)[0])
  {
    if user.Some? && form.amount.Some? && form.description != "" then
      var category := if form.category != "" then form.category else Categories(form.kind)[0];
      Some(Transaction(id, form.kind, form.amount.value, form.description, category, form.date, None, user.value))
    else None
  }

  /** `handleSubmit`: append to storage, put the new transaction first in the
      listed ones (newest first); an incomplete form changes nothing. */
  function SubmitTransaction(st: Storage, listed: seq<Transaction>, form: TxForm, user: Option<UserId>, id: RecordId)
    : (r: (Storage, seq<Transaction>))
    ensures NewTransaction(form, user, id).None? ==> r == (st, listed)
    ensures NewTransaction(form, user, id).Some? ==>
      var t := NewTransaction(form, user, id).value;
      r.0 == AddTransaction(st, t) && r.1 == [t] + listed
  {
    match NewTransaction(form, user, id)
    case None => (st, listed)
    case Some(t) => (AddTransaction(st, t), [t] + listed)
  }

  /** After a submission the list holds the same transactions as storage
      does for the owner, though the new one is first on screen and last in
      storage. */
  lemma SubmitKeepsSameTransactions(st: Storage, listed: seq<Transaction>, form: TxForm, u: UserId, id: RecordId)
    requires forall t :: t in listed <==> t in GetTransactions(st, u)
    ensures var r := SubmitTransaction(st, listed, form, Some(u), id);
      forall t :: t in r.1 <==> t in GetTransactions(r.0, u)
  {
    match NewTransaction(form, Some(u), id)
    case None =>
    case Some(t) =>
      GetAfterAddTransaction(st, t, u);
  }

  // ---------------------------------------------------------------------------
  // Search and filter

  /** Case-insensitive match of the search text in the description or the
      category. */
  predicate MatchesSearch(t: Transaction, search: string) {
    Contains(Lower(t.description), Lower(search)) || Contains(Lower(t.category), Lower(search))
  }

  /** The category filter; `None` is the "all" choice. */
  type CategoryFilter = Option<string>

  predicate MatchesCategory(t: Transaction, filter: CategoryFilter) {
    filter.None? || t.category == filter.value
  }

  /** The listed transactions: matching the search, the category filter and
      the open tab, in the list's order. */
  function FilterTransactions(ts: seq<Transaction>, search: string, filter: CategoryFilter, tab: TxKind)
    : (r: seq<Transaction>)
    ensures forall t :: t in r <==>
      t in ts && MatchesSearch(t, search) && MatchesCategory(t, filter) && t.kind == tab
    ensures Selects(r, ts, (t: Transaction) => MatchesSearch(t, search) && MatchesCategory(t, filter) && t.kind == tab)
  {
    var p := (t: Transaction) => MatchesSearch(t, search) && MatchesCategory(t, filter) && t.kind == tab;
    FilterSelects(ts, p);
    Filter(ts, p)
  }

  /** With no search text and every category, the list is exactly the open
      tab's transactions. */
  lemma UnfilteredShowsTab(ts: seq<Transaction>, tab: TxKind)
    ensures FilterTransactions(ts, "", None, tab) == OfKind(ts, tab)
  {
    forall i | 0 <= i < |ts|
      ensures (MatchesSearch(ts[i], "") && MatchesCategory(ts[i], None) && ts[i].kind == tab)
              == (ts[i].kind == tab)
    {
    }
    FilterCongruent(ts,
      (t: Transaction) => MatchesSearch(t, "") && MatchesCategory(t, None) && t.kind == tab,
      (t: Transaction) => t.kind == tab);
  }

  /** The search ignores ASCII case. */
  lemma SearchIgnoresCase(t: Transaction, search: string)
    ensures MatchesSearch(t, search) <==> MatchesSearch(t, Lower(search))
  {
    LowerIdempotent(search);
  }

  // ---------------------------------------------------------------------------
  // Today's total

  /** The total of the open tab's transactions dated today. */
  function TodayTotal(ts: seq<Transaction>, tab: TxKind, today: Date): real {
    Sum(Filter(ts, (t: Transaction) => t.kind == tab && t.date == today))
  }

  /** Today's total is the matching daily summary figure for the tab's kind. */
  lemma TodayTotalIsDailyFigure(ts: seq<Transaction>, u: UserId, today: Date)
    requires forall j :: 0 <= j < |ts| ==> ts[j].userId == u
    ensures TodayTotal(ts, Sale, today) == CalculateDailySummary(ts, today, u).totalSales
    ensures TodayTotal(ts, Expense, today) == CalculateDailySummary(ts, today, u).totalExpenses
    ensures TodayTotal(ts, Investment, today) == CalculateDailySummary(ts, today, u).totalInvestment
  {
    TodayTotalOfKind(ts, u, today, Sale);
    TodayTotalOfKind(ts, u, today, Expense);
    TodayTotalOfKind(ts, u, today, Investment);
  }

  lemma TodayTotalOfKind(ts: seq<Transaction>, u: UserId, today: Date, k: TxKind)
    requires forall j :: 0 <= j < |ts| ==> ts[j].userId == u
    ensures TodayTotal(ts, k, today) == Total(DayTransactions(ts, today, u), k)
  {
    FilterFilter(ts, (t: Transaction) => t.userId == u && t.date == today, (t: Transaction) => t.kind == k,
      (t: Transaction) => t.userId == u && t.date == today && t.kind == k);
    FilterCongruent(ts,
      (t: Transaction) => t.userId == u && t.date == today && t.kind == k,
      (t: Transaction) => t.kind == k && t.date == today);
  }
}
