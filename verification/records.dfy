/** The persisted entities of the finance tracker and the object-spread
    patches (`{ ...record, ...updates }`) that the store applies to them. */
module Records {
  import opened Optional
  import opened Calendar

  type UserId = string
  type RecordId = string

  datatype TxKind = Sale | Expense | Investment

  /** A sale, expense or investment entry. `billId` is present only on the
      expense created when a bill is approved. */
  datatype Transaction = Transaction(
    id: RecordId,
    kind: TxKind,
    amount: real,
    description: string,
    category: string,
    date: Date,
    billId: Option<RecordId>,
    userId: UserId)

  datatype LineItem = LineItem(name: string, quantity: real, price: real)

  /** The fields read off a bill (by hand or by the extraction stub). */
  datatype ExtractedData = ExtractedData(
    billNumber: string,
    date: Date,
    vendor: string,
    amount: real,
    tax: real,
    items: seq<LineItem>)

  datatype BillStatus = Draft | Approved

  /** An uploaded bill; `uploadDate` is the upload instant in milliseconds. */
  datatype Bill = Bill(
    id: RecordId,
    fileName: string,
    fileType: string,
    uploadDate: int,
    status: BillStatus,
    extracted: ExtractedData,
    userId: UserId)

  /** The goal kinds the form offers; any other stored tag is `OtherGoal`. */
  datatype GoalKind = SalesGoal | ProfitGoal | ExpenseReductionGoal | OtherGoal(tag: string)

  datatype GoalStatus = OnTrack | Achieved | AtRisk

  datatype Goal = Goal(
    id: RecordId,
    kind: GoalKind,
    title: string,
    targetAmount: real,
    currentAmount: real,
    deadline: Date,
    status: GoalStatus,
    userId: UserId)

  /** Cached totals of one owner's transactions on one day. */
  datatype DailySummary = DailySummary(
    date: Date,
    totalInvestment: real,
    totalExpenses: real,
    totalSales: real,
    profit: real,
    userId: UserId)

  /** The fields an update object may carry; an absent field keeps the
      record's value. */
  datatype TransactionPatch = TransactionPatch(
    id: Option<RecordId>,
    kind: Option<TxKind>,
    amount: Option<real>,
    description: Option<string>,
    category: Option<string>,
    date: Option<Date>,
    billId: Option<Option<RecordId>>,
    userId: Option<UserId>)

  datatype BillPatch = BillPatch(
    id: Option<RecordId>,
    fileName: Option<string>,
    fileType: Option<string>,
    uploadDate: Option<int>,
    status: Option<BillStatus>,
    extracted: Option<ExtractedData>,
    userId: Option<UserId>)

  datatype GoalPatch = GoalPatch(
    id: Option<RecordId>,
    kind: Option<GoalKind>,
    title: Option<string>,
    targetAmount: Option<real>,
    currentAmount: Option<real>,
    deadline: Option<Date>,
    status: Option<GoalStatus>,
    userId: Option<UserId>)

  function MergeTransaction(t: Transaction, u: TransactionPatch): Transaction {
    Transaction(Pick(u.id, t.id), Pick(u.kind, t.kind), Pick(u.amount, t.amount),
      Pick(u.description, t.description), Pick(u.category, t.category),
      Pick(u.date, t.date), Pick(u.billId, t.billId), Pick(u.userId, t.userId))
  }

  function MergeBill(b: Bill, u: BillPatch): Bill {
    Bill(Pick(u.id, b.id), Pick(u.fileName, b.fileName), Pick(u.fileType, b.fileType),
      Pick(u.uploadDate, b.uploadDate), Pick(u.status, b.status),
      Pick(u.extracted, b.extracted), Pick(u.userId, b.userId))
  }

  function MergeGoal(g: Goal, u: GoalPatch): Goal {
    Goal(Pick(u.id, g.id), Pick(u.kind, g.kind), Pick(u.title, g.title),
      Pick(u.targetAmount, g.targetAmount), Pick(u.currentAmount, g.currentAmount),
      Pick(u.deadline, g.deadline), Pick(u.status, g.status), Pick(u.userId, g.userId))
  }

  /** The update object `{ status }` that bill approval sends. */
  function StatusPatch(s: BillStatus): BillPatch {
    BillPatch(None, None, None, None, Some(s), None, None)
  }

  /** An update object with no fields leaves a record as it is. */
  lemma EmptyPatchesKeepRecords(t: Transaction, b: Bill, g: Goal)
    ensures MergeTransaction(t, TransactionPatch(None, None, None, None, None, None, None, None)) == t
    ensures MergeBill(b, BillPatch(None, None, None, None, None, None, None)) == b
    ensures MergeGoal(g, GoalPatch(None, None, None, None, None, None, None, None)) == g
  {
  }

  /** The approval update changes the status and nothing else. */
  lemma StatusPatchChangesOnlyStatus(b: Bill, s: BillStatus)
    ensures MergeBill(b, StatusPatch(s)) == b.(status := s)
  {
  }

  /** For every field, a field present in the update wins over the goal's
      value and an absent one keeps it; merging the same update twice is
      merging it once. */
  lemma MergeGoalLaws(g: Goal, u: GoalPatch)
    ensures var m := MergeGoal(g, u); (u.id.Some? ==> m.id == u.id.value) && (u.id.None? ==> m.id == g.id)
    ensures var m := MergeGoal(g, u); (u.kind.Some? ==> m.kind == u.kind.value) && (u.kind.None? ==> m.kind == g.kind)
    ensures var m := MergeGoal(g, u); (u.title.Some? ==> m.title == u.title.value) && (u.title.None? ==> m.title == g.title)
    ensures var m := MergeGoal(g, u); (u.targetAmount.Some? ==> m.targetAmount == u.targetAmount.value) && (u.targetAmount.None? ==> m.targetAmount == g.targetAmount)
    ensures var m := MergeGoal(g, u); (u.currentAmount.Some? ==> m.currentAmount == u.currentAmount.value) && (u.currentAmount.None? ==> m.currentAmount == g.currentAmount)
    ensures var m := MergeGoal(g, u); (u.deadline.Some? ==> m.deadline == u.deadline.value) && (u.deadline.None? ==> m.deadline == g.deadline)
    ensures var m := MergeGoal(g, u); (u.status.Some? ==> m.status == u.status.value) && (u.status.None? ==> m.status == g.status)
    ensures var m := MergeGoal(g, u); (u.userId.Some? ==> m.userId == u.userId.value) && (u.userId.None? ==> m.userId == g.userId)
    ensures MergeGoal(MergeGoal(g, u), u) == MergeGoal(g, u)
  {
  }
}
