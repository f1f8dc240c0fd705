/**
 * The transaction service (src/services/transactionService.ts): the revenue
 * total over a date window, the newest-first delivery of live snapshots, and
 * the error message of a failed insert. The document store is not modelled:
 * the documents a query returns are an argument, and whether a call failed
 * is an argument too.
 */
module TransactionService {
  import opened Records
  import Ordering

  predicate IsCompleted(t: Transaction) { t.status == Completed }

  /** The counting rule of `getTotalTransactionAmount`: completed, and inside the inclusive window. */
  predicate Counted(t: Transaction, start: Option<int>, end: Option<int>)
  {
    && t.status == Completed
    && !(start.Some? && t.createdAt < start.value)
    && !(end.Some? && t.createdAt > end.value)
  }

  /** The rule, as the per-document test of the loop. */
  function CountedIn(start: Option<int>, end: Option<int>): Transaction -> bool
  {
    (t: Transaction) => Counted(t, start, end)
  }

  /**
   * `getTotalTransactionAmount(userId, startDate, endDate)` over the documents
   * the query returned: the sum of `totalAmount || 0` over the counted ones.
   */
  method TotalAmount(docs: seq<Transaction>, start: Option<int>, end: Option<int>) returns (total: int)
    ensures total == SumWhere(docs, CountedIn(start, end))
  {
    total := 0;
    for i := 0 to |docs|
      invariant total == SumWhere(docs[..i], CountedIn(start, end))
    {
      var data := docs[i];
      assert docs[..i + 1][..i] == docs[..i];
      if data.status != Completed {
        continue;
      }
      if start.Some? && data.createdAt < start.value {
        continue;
      }
      if end.Some? && data.createdAt > end.value {
        continue;
      }
      total := total + Amount(data);
    }
    assert docs[..|docs|] == docs;
  }

  /** Both ends of the window are inclusive. */
  lemma WindowIsInclusive(t: Transaction)
    requires t.status == Completed
    ensures Counted(t, Some(t.createdAt), Some(t.createdAt))
    ensures !Counted(t, Some(t.createdAt + 1), None) && !Counted(t, None, Some(t.createdAt - 1))
  {
  }

  /** Without bounds the total is the sum over the completed documents, in whatever order they come. */
  lemma UnboundedTotal(docs: seq<Transaction>, other: seq<Transaction>)
    requires multiset(other) == multiset(docs)
    ensures SumWhere(docs, CountedIn(None, None)) == SumAmounts(Where(other, IsCompleted))
  {
    SumWherePermutation(docs, other, CountedIn(None, None));
    SumWhereIsSumOfWhere(other, CountedIn(None, None));
    WhereSameRule(other, CountedIn(None, None), IsCompleted);
  }

  lemma {:induction false} WhereSameRule(ts: seq<Transaction>, p: Transaction -> bool, q: Transaction -> bool)
    requires forall t :: p(t) == q(t)
    ensures Where(ts, p) == Where(ts, q)
  {
    if ts != [] {
      WhereSameRule(ts[..|ts| - 1], p, q);
    }
  }

  /** With no negative amounts, widening the window never lowers the total. */
  lemma {:induction false} WiderWindowNotSmaller(docs: seq<Transaction>, s1: Option<int>, e1: Option<int>, s2: Option<int>, e2: Option<int>)
    requires forall t :: t in docs ==> Amount(t) >= 0
    requires s2.Some? ==> s1.Some? && s2.value <= s1.value
    requires e2.Some? ==> e1.Some? && e1.value <= e2.value
    ensures SumWhere(docs, CountedIn(s1, e1)) <= SumWhere(docs, CountedIn(s2, e2))
  {
    if docs != [] {
      var init, last := docs[..|docs| - 1], docs[|docs| - 1];
      assert forall t :: t in init ==> t in docs;
      WiderWindowNotSmaller(init, s1, e1, s2, e2);
      assert Counted(last, s1, e1) ==> Counted(last, s2, e2);
      assert Amount(last) >= 0;
    }
  }

  /** A stored document: its key `id` (`doc.id`) and its data fields (`doc.data()`). */
  datatype Doc = Doc(id: string, userId: string, items: seq<TransactionItem>, totalAmount: Option<int>,
                     status: Status, createdAt: int, updatedAt: int)

  /** `{ id: doc.id, ...doc.data() }` */
  function FromDoc(d: Doc): (t: Transaction)
    ensures t.id == d.id && t.createdAt == d.createdAt && t.totalAmount == d.totalAmount && t.status == d.status
  {
    Transaction(d.id, d.userId, d.items, d.totalAmount, d.status, d.createdAt, d.updatedAt)
  }

  function FromDocs(docs: seq<Doc>): (ts: seq<Transaction>)
    ensures |ts| == |docs| && forall i :: 0 <= i < |docs| ==> ts[i] == FromDoc(docs[i])
  {
    seq(|docs|, i requires 0 <= i < |docs| => FromDoc(docs[i]))
  }

  /**
   * The snapshot listener of `onUserTransactionsChanged`: map the documents,
   * sort the array in place newest first, and hand it to the callback.
   */
  method Deliver(docs: seq<Doc>) returns (delivered: seq<Transaction>)
    ensures Ordering.NewestFirst(delivered, CreatedAt)
    ensures multiset(delivered) == multiset(FromDocs(docs))
    ensures |delivered| == |docs|
  {
    var transactions := new Transaction[|docs|](i requires 0 <= i < |docs| => FromDoc(docs[i]));
    assert transactions[..] == FromDocs(docs);
    Ordering.SortInPlace(transactions, CreatedAt);
    delivered := transactions[..];
    assert |multiset(delivered)| == |docs|;
  }

  /** An error the store reports: its code and, possibly empty or missing, its message. */
  datatype StoreError = StoreError(code: string, message: Option<string>)

  const PermissionDeniedMessage: string :=
    "Anda tidak memiliki izin untuk membuat transaksi. Pastikan Firestore sudah dikonfigurasi."
  const CreateFailedMessage: string := "Gagal membuat transaksi"

  /** The message `addTransaction` throws with: never empty, so the caller always has something to show. */
  function InsertErrorMessage(e: StoreError): (msg: string)
    ensures e.code == "permission-denied" ==> msg == PermissionDeniedMessage
    ensures e.code != "permission-denied" && e.message.Some? && e.message.value != "" ==> msg == e.message.value
    ensures e.code != "permission-denied" && (e.message.None? || e.message.value == "") ==> msg == CreateFailedMessage
    ensures msg != ""
  {
    if e.code == "permission-denied" then PermissionDeniedMessage
    else if e.message.Some? && e.message.value != "" then e.message.value
    else CreateFailedMessage
  }

  datatype InsertResult = Inserted(docId: string, stored: Doc) | InsertFailed(message: string)

  /**
   * `addTransaction(transaction)`: the document stored is the transaction
   * with `createdAt` and `updatedAt` set from two separate clock readings,
   * `created` and `updated`; `store` is what the store answered (the new id,
   * or an error).
   */
  function AddTransaction(t: Transaction, created: int, updated: int, store: Result): (r: InsertResult)
    ensures store.NewId? ==> r.Inserted? && r.docId == store.id
    ensures r.Inserted? ==> r.stored.createdAt == created && r.stored.updatedAt == updated
                            && r.stored.userId == t.userId && r.stored.items == t.items
                            && r.stored.totalAmount == t.totalAmount && r.stored.status == t.status
    ensures store.Refused? ==> r == InsertFailed(InsertErrorMessage(store.error))
  {
    match store
    case NewId(id) => Inserted(id, Doc(id, t.userId, t.items, t.totalAmount, t.status, created, updated))
    case Refused(e) => InsertFailed(InsertErrorMessage(e))
  }

  /** The store's answer to an insert. */
  datatype Result = NewId(id: string) | Refused(error: StoreError)
}
