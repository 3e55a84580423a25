/** Bill handling: saving an extracted bill as a draft and approving it,
    which also records the bill as a business expense. */
module Bills {
  import opened Optional
  import opened Sequences
  import opened Records
  import opened Store

  /** The file picked or dropped: its name and MIME type. */
  datatype UploadedFile = UploadedFile(name: string, fileType: string)

  /** `saveBill`: with a signed-in user and a file, store a draft bill and
      append it to the listed ones; otherwise nothing changes. */
  function SaveBill(st: Storage, bills: seq<Bill>, user: Option<UserId>, file: Option<UploadedFile>,
                    extracted: ExtractedData, id: RecordId, uploadDate: int): (r: (Storage, seq<Bill>))
    ensures user.None? || file.None? ==> r == (st, bills)
    ensures user.Some? && file.Some? ==>
      var b := Bill(id, file.value.name, file.value.fileType, uploadDate, Draft, extracted, user.value);
      r.0 == AddBill(st, b) && r.1 == bills + [b]
  {
    if user.Some? && file.Some? then
      var b := Bill(id, file.value.name, file.value.fileType, uploadDate, Draft, extracted, user.value);
      (AddBill(st, b), bills + [b])
    else (st, bills)
  }

  /** Saving keeps the listed bills in step with the stored ones, and the
      new bill is offered for approval. */
  lemma SaveBillKeepsViewInSync(st: Storage, bills: seq<Bill>, u: UserId, file: UploadedFile,
                                extracted: ExtractedData, id: RecordId, uploadDate: int)
    requires bills == GetBills(st, u)
    ensures var r := SaveBill(st, bills, Some(u), Some(file), extracted, id, uploadDate);
      r.1 == GetBills(r.0, u) && r.1[|r.1| - 1] in ApprovableBills(r.1)
  {
    var b := Bill(id, file.name, file.fileType, uploadDate, Draft, extracted, u);
    FilterConcat(Read(st.bills), [b], (x: Bill) => x.userId == u);
  }

  /** The listed bills with every bill of that id marked approved. */
  function MarkApproved(bills: seq<Bill>, billId: RecordId): (r: seq<Bill>)
    ensures |r| == |bills|
    ensures forall i :: 0 <= i < |bills| ==>
      (bills[i].id == billId ==> r[i] == bills[i].(status := Approved))
      && (bills[i].id != billId ==> r[i] == bills[i])
  {
    seq(|bills|, i requires 0 <= i < |bills| =>
      if bills[i].id == billId then bills[i].(status := Approved) else bills[i])
  }

  /** The expense recorded for an approved bill. */
  function BillExpense(b: Bill, userId: UserId, id: RecordId): (t: Transaction)
    ensures t.id == id && t.kind == Expense && t.billId == Some(b.id) && t.userId == userId
    ensures t.amount == b.extracted.amount && t.date == b.extracted.date
    ensures t.description == "Bill from " + b.extracted.vendor && t.category == "Business Expense"
  {
    Transaction(id, Expense, b.extracted.amount, "Bill from " + b.extracted.vendor,
      "Business Expense", b.extracted.date, Some(b.id), userId)
  }

  /** `approveBill`: approve the first stored bill with that id, mark every
      listed bill with that id approved, and, when the id is among the listed
      bills and someone is signed in, record one expense for the first of
      them. The bill's current status is not checked. */
  function ApproveBill(st: Storage, bills: seq<Bill>, billId: RecordId, user: Option<UserId>, txId: RecordId)
    : (r: (Storage, seq<Bill>))
    ensures r.1 == MarkApproved(bills, billId)
    ensures r.0.bills == UpdateBill(st, billId, StatusPatch(Approved)).bills
    ensures r.0.goals == st.goals && r.0.summaries == st.summaries
    ensures forall b :: b in r.1 && b.id == billId ==> b.status == Approved
    ensures match FirstIndex(bills, (b: Bill) => b.id == billId)
      case Some(i) =>
        user.Some? ==> r.0.transactions == AddTransaction(st, BillExpense(bills[i], user.value, txId)).transactions
      case None => r.0.transactions == st.transactions
    ensures user.None? ==> r.0.transactions == st.transactions
  {
    var stored := UpdateBill(st, billId, StatusPatch(Approved));
    var shown := MarkApproved(bills, billId);
    match FirstIndex(bills, (b: Bill) => b.id == billId)
    case Some(i) =>
      if user.Some? then (AddTransaction(stored, BillExpense(bills[i], user.value, txId)), shown)
      else (stored, shown)
    case None => (stored, shown)
  }

  /** Approval records exactly one expense, for the first listed bill with
      that id, when the bill is listed and someone is signed in, and none
      otherwise. */
  lemma ApproveRecordsOneExpense(st: Storage, bills: seq<Bill>, billId: RecordId, user: Option<UserId>, txId: RecordId)
    ensures var after := Read(ApproveBill(st, bills, billId, user, txId).0.transactions);
      if user.Some? && (exists i :: 0 <= i < |bills| && bills[i].id == billId) then
        var i := FirstIndex(bills, (b: Bill) => b.id == billId).value;
        bills[i].id == billId
        && |after| == |Read(st.transactions)| + 1
        && after[..|Read(st.transactions)|] == Read(st.transactions)
        && after[|Read(st.transactions)|] == BillExpense(bills[i], user.value, txId)
      else after == Read(st.transactions)
  {
    var stored := UpdateBill(st, billId, StatusPatch(Approved));
    assert stored.transactions == st.transactions;
  }

  /** The "Recent Uploads" card: the first five listed bills, or all of
      them when there are fewer. */
  function RecentUploads(bills: seq<Bill>): (r: seq<Bill>)
    ensures r <= bills
    ensures |r| == if |bills| < 5 then |bills| else 5
  {
    if |bills| <= 5 then bills else bills[..5]
  }

  /** A bill offered for approval on the card is offered in the full list
      too, at the same position among the drafts. */
  lemma RecentApprovableArePrefix(bills: seq<Bill>)
    ensures ApprovableBills(RecentUploads(bills)) <= ApprovableBills(bills)
  {
    if |bills| > 5 {
      FilterConcat(bills[..5], bills[5..], (b: Bill) => b.status == Draft);
      assert bills == bills[..5] + bills[5..];
    }
  }

  /** The bills an Approve button is shown for. */
  function ApprovableBills(bills: seq<Bill>): (r: seq<Bill>)
    ensures forall b :: b in r <==> b in bills && b.status == Draft
    ensures Selects(r, bills, (b: Bill) => b.status == Draft)
  {
    FilterSelects(bills, (b: Bill) => b.status == Draft);
    Filter(bills, (b: Bill) => b.status == Draft)
  }

  /** Once approved, a bill is no longer offered for approval. */
  lemma ApprovedNotOffered(st: Storage, bills: seq<Bill>, billId: RecordId, user: Option<UserId>, txId: RecordId)
    ensures forall b :: b in ApprovableBills(ApproveBill(st, bills, billId, user, txId).1) ==> b.id != billId
  {
  }

  /** Approving changes only statuses: the listed bills keep their ids,
      files and extracted data. */
  lemma ApproveKeepsBillData(bills: seq<Bill>, billId: RecordId)
    ensures forall i :: 0 <= i < |bills| ==>
      MarkApproved(bills, billId)[i].(status := bills[i].status) == bills[i]
  {
  }
}
