/** The record store: four independently keyed collections, each read whole,
    changed in memory and written back whole. A key that was never written
    reads as the empty collection. */
module Store {
  import opened Optional
  import opened Sequences
  import opened Records

  /** The content of one storage key; `None` when the key was never written. */
  type Slot<R> = Option<seq<R>>

  function Read<R>(slot: Slot<R>): seq<R> {
    match slot
    case None => []
    case Some(rs) => rs
  }

  datatype Storage = Storage(
    transactions: Slot<Transaction>,
    bills: Slot<Bill>,
    goals: Slot<Goal>,
    summaries: Slot<DailySummary>)

  const Empty := Storage(None, None, None, None)

  // ---------------------------------------------------------------------------
  // Collection-level operations, shared by the four collections.

  /** `after` is `before` with its first record satisfying `p` replaced by
      `change` of it, and nothing else changed. */
  ghost predicate ChangedFirst<R>(before: seq<R>, after: seq<R>, p: R -> bool, change: R -> R) {
    |after| == |before|
    && exists i :: 0 <= i < |before| && p(before[i])
         && (forall j :: 0 <= j < i ==> !p(before[j]))
         && after[i] == change(before[i])
         && (forall j :: 0 <= j < |before| && j != i ==> after[j] == before[j])
  }

  /** Apply `change` to the first record satisfying `p`; `None` when there is
      no such record (the source then skips the write). */
  function UpdateFirst<R>(rs: seq<R>, p: R -> bool, change: R -> R): (r: Option<seq<R>>)
    ensures r.None? <==> forall j :: 0 <= j < |rs| ==> !p(rs[j])
    ensures r.Some? ==> ChangedFirst(rs, r.value, p, change)
  {
    match FirstIndex(rs, p)
    case None => None
    case Some(i) => Some(rs[i := change(rs[i])])
  }

  /** Replace the first record satisfying `p` by `x`, or append `x`. */
  function Upsert<R>(rs: seq<R>, p: R -> bool, x: R): (r: seq<R>)
    ensures (exists j :: 0 <= j < |rs| && p(rs[j])) ==> ChangedFirst(rs, r, p, _ => x)
    ensures (forall j :: 0 <= j < |rs| ==> !p(rs[j])) ==> r == rs + [x]
  {
    match FirstIndex(rs, p)
    case None => rs + [x]
    case Some(i) => rs[i := x]
  }

  // ---------------------------------------------------------------------------
  // Transactions

  function GetTransactions(st: Storage, userId: UserId): (r: seq<Transaction>)
    ensures forall t :: t in r <==> t in Read(st.transactions) && t.userId == userId
    ensures Selects(r, Read(st.transactions), (t: Transaction) => t.userId == userId)
  {
    FilterSelects(Read(st.transactions), (t: Transaction) => t.userId == userId);
    Filter(Read(st.transactions), (t: Transaction) => t.userId == userId)
  }

  function AddTransaction(st: Storage, t: Transaction): (r: Storage)
    ensures r.transactions.Some?
    ensures |Read(r.transactions)| == |Read(st.transactions)| + 1
    ensures Read(r.transactions)[|Read(st.transactions)|] == t
    ensures Read(r.transactions)[..|Read(st.transactions)|] == Read(st.transactions)
    ensures r.(transactions := st.transactions) == st
  {
    st.(transactions := Some(Read(st.transactions) + [t]))
  }

  function UpdateTransaction(st: Storage, id: RecordId, u: TransactionPatch): (r: Storage)
    ensures r.(transactions := st.transactions) == st
    ensures (exists j :: 0 <= j < |Read(st.transactions)| && Read(st.transactions)[j].id == id)
            ==> ChangedFirst(Read(st.transactions), Read(r.transactions),
                             (t: Transaction) => t.id == id, (t: Transaction) => MergeTransaction(t, u))
    ensures (forall j :: 0 <= j < |Read(st.transactions)| ==> Read(st.transactions)[j].id != id)
            ==> r == st
  {
    match UpdateFirst(Read(st.transactions), (t: Transaction) => t.id == id, (t: Transaction) => MergeTransaction(t, u))
    case None => st
    case Some(ts) => st.(transactions := Some(ts))
  }

  /** Removes every transaction with the given id (not only the first). */
  function DeleteTransaction(st: Storage, id: RecordId): (r: Storage)
    ensures r.transactions.Some?
    ensures forall t :: t in Read(r.transactions) <==> t in Read(st.transactions) && t.id != id
    ensures Selects(Read(r.transactions), Read(st.transactions), (t: Transaction) => t.id != id)
    ensures r.(transactions := st.transactions) == st
  {
    FilterSelects(Read(st.transactions), (t: Transaction) => t.id != id);
    st.(transactions := Some(Filter(Read(st.transactions), (t: Transaction) => t.id != id)))
  }

  // ---------------------------------------------------------------------------
  // Bills

  function GetBills(st: Storage, userId: UserId): (r: seq<Bill>)
    ensures forall b :: b in r <==> b in Read(st.bills) && b.userId == userId
    ensures Selects(r, Read(st.bills), (b: Bill) => b.userId == userId)
  {
    FilterSelects(Read(st.bills), (b: Bill) => b.userId == userId);
    Filter(Read(st.bills), (b: Bill) => b.userId == userId)
  }

  function AddBill(st: Storage, b: Bill): (r: Storage)
    ensures r.bills.Some?
    ensures |Read(r.bills)| == |Read(st.bills)| + 1
    ensures Read(r.bills)[|Read(st.bills)|] == b
    ensures Read(r.bills)[..|Read(st.bills)|] == Read(st.bills)
    ensures r.(bills := st.bills) == st
  {
    st.(bills := Some(Read(st.bills) + [b]))
  }

  function UpdateBill(st: Storage, id: RecordId, u: BillPatch): (r: Storage)
    ensures r.(bills := st.bills) == st
    ensures (exists j :: 0 <= j < |Read(st.bills)| && Read(st.bills)[j].id == id)
            ==> ChangedFirst(Read(st.bills), Read(r.bills), (b: Bill) => b.id == id, (b: Bill) => MergeBill(b, u))
    ensures (forall j :: 0 <= j < |Read(st.bills)| ==> Read(st.bills)[j].id != id) ==> r == st
  {
    match UpdateFirst(Read(st.bills), (b: Bill) => b.id == id, (b: Bill) => MergeBill(b, u))
    case None => st
    case Some(bs) => st.(bills := Some(bs))
  }

  // ---------------------------------------------------------------------------
  // Goals

  function GetGoals(st: Storage, userId: UserId): (r: seq<Goal>)
    ensures forall g :: g in r <==> g in Read(st.goals) && g.userId == userId
    ensures Selects(r, Read(st.goals), (g: Goal) => g.userId == userId)
  {
    FilterSelects(Read(st.goals), (g: Goal) => g.userId == userId);
    Filter(Read(st.goals), (g: Goal) => g.userId == userId)
  }

  function AddGoal(st: Storage, g: Goal): (r: Storage)
    ensures r.goals.Some?
    ensures |Read(r.goals)| == |Read(st.goals)| + 1
    ensures Read(r.goals)[|Read(st.goals)|] == g
    ensures Read(r.goals)[..|Read(st.goals)|] == Read(st.goals)
    ensures r.(goals := st.goals) == st
  {
    st.(goals := Some(Read(st.goals) + [g]))
  }

  function UpdateGoal(st: Storage, id: RecordId, u: GoalPatch): (r: Storage)
    ensures r.(goals := st.goals) == st
    ensures (exists j :: 0 <= j < |Read(st.goals)| && Read(st.goals)[j].id == id)
            ==> ChangedFirst(Read(st.goals), Read(r.goals), (g: Goal) => g.id == id, (g: Goal) => MergeGoal(g, u))
    ensures (forall j :: 0 <= j < |Read(st.goals)| ==> Read(st.goals)[j].id != id) ==> r == st
  {
    match UpdateFirst(Read(st.goals), (g: Goal) => g.id == id, (g: Goal) => MergeGoal(g, u))
    case None => st
    case Some(gs) => st.(goals := Some(gs))
  }

  // ---------------------------------------------------------------------------
  // Daily summaries

  function GetDailySummaries(st: Storage, userId: UserId): (r: seq<DailySummary>)
    ensures forall s :: s in r <==> s in Read(st.summaries) && s.userId == userId
    ensures Selects(r, Read(st.summaries), (s: DailySummary) => s.userId == userId)
  {
    FilterSelects(Read(st.summaries), (s: DailySummary) => s.userId == userId);
    Filter(Read(st.summaries), (s: DailySummary) => s.userId == userId)
  }

  /** Replace the first summary for the same (date, owner) wholesale, or
      append the summary when there is none. */
  function UpdateDailySummary(st: Storage, s: DailySummary): (r: Storage)
    ensures r.summaries.Some?
    ensures s in Read(r.summaries)
    ensures |Read(r.summaries)| == |Read(st.summaries)|
            || |Read(r.summaries)| == |Read(st.summaries)| + 1
    ensures (exists j :: 0 <= j < |Read(st.summaries)| && SameDay(Read(st.summaries)[j], s))
            ==> ChangedFirst(Read(st.summaries), Read(r.summaries), (x: DailySummary) => SameDay(x, s), _ => s)
    ensures (forall j :: 0 <= j < |Read(st.summaries)| ==> !SameDay(Read(st.summaries)[j], s))
            ==> Read(r.summaries) == Read(st.summaries) + [s]
    ensures r.(summaries := st.summaries) == st
  {
    var r := Upsert(Read(st.summaries), (x: DailySummary) => SameDay(x, s), s);
    assert s in r by {
      if r != Read(st.summaries) + [s] {
        var i :| 0 <= i < |Read(st.summaries)| && SameDay(Read(st.summaries)[i], s) && r[i] == s;
      }
    }
    st.(summaries := Some(r))
  }

  /** Two summaries are for the same day and the same owner. */
  predicate SameDay(x: DailySummary, s: DailySummary) {
    x.date == s.date && x.userId == s.userId
  }

  // ---------------------------------------------------------------------------
  // Properties relating the operations

  /** Before anything is written, every collection reads as empty. */
  lemma EmptyStoreReadsEmpty(u: UserId)
    ensures GetTransactions(Empty, u) == [] && GetBills(Empty, u) == []
    ensures GetGoals(Empty, u) == [] && GetDailySummaries(Empty, u) == []
  {
  }

  /** A read after an append sees the earlier view plus the new record, when
      the new record belongs to the reader. */
  lemma GetAfterAddTransaction(st: Storage, t: Transaction, userId: UserId)
    ensures GetTransactions(AddTransaction(st, t), userId)
            == GetTransactions(st, userId) + (if t.userId == userId then [t] else [])
  {
    FilterConcat(Read(st.transactions), [t], (x: Transaction) => x.userId == userId);
  }

  /** Deleting the same id twice is deleting it once. */
  lemma DeleteTransactionIdempotent(st: Storage, id: RecordId)
    ensures DeleteTransaction(DeleteTransaction(st, id), id) == DeleteTransaction(st, id)
  {
    var kept := Read(DeleteTransaction(st, id).transactions);
    FilterAll(kept, (t: Transaction) => t.id != id);
  }

  /** Writing the same daily summary twice is writing it once. */
  lemma UpdateDailySummaryIdempotent(st: Storage, s: DailySummary)
    ensures UpdateDailySummary(UpdateDailySummary(st, s), s) == UpdateDailySummary(st, s)
  {
    UpsertIdempotent(Read(st.summaries), (x: DailySummary) => SameDay(x, s), s);
  }

  lemma UpsertIdempotent<R>(rs: seq<R>, p: R -> bool, x: R)
    requires p(x)
    ensures Upsert(Upsert(rs, p, x), p, x) == Upsert(rs, p, x)
  {
    var r1 := Upsert(rs, p, x);
    match FirstIndex(rs, p)
    case None =>
      assert r1 == rs + [x];
      FirstMatch(r1, p, |rs|);
    case Some(i) =>
      assert r1 == rs[i := x];
      FirstMatch(r1, p, i);
  }
}
