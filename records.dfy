/**
 * Shared records of the point-of-sale app: products, transactions and the
 * sums over them. Money, prices, stock and amounts are whole numbers (rupiah
 * and units); timestamps are integers (milliseconds), so that "newer" is ">".
 */
module Records {

  datatype Option<+T> = None | Some(value: T) {
    function GetOr(default: T): T {
      match this
      case Some(v) => v
      case None => default
    }
  }

  /** A catalogue product as the remote collection delivers it. */
  datatype Product = Product(id: string, name: string, price: int, stock: int, image: string)

  datatype Status = Pending | Completed | Cancelled

  /** One line of a receipt. */
  datatype TransactionItem = TransactionItem(
    productId: string, productName: string, price: int, quantity: int, subtotal: int)

  /**
   * A transaction document. `totalAmount` is optional because documents read
   * back from the store are not checked; a missing amount is read as 0.
   */
  datatype Transaction = Transaction(
    id: string, userId: string, items: seq<TransactionItem>,
    totalAmount: Option<int>, status: Status,
    createdAt: int, updatedAt: int)

  /** The sort key of the transaction lists. */
  function CreatedAt(t: Transaction): int { t.createdAt }

  /** `t.totalAmount || 0` */
  function Amount(t: Transaction): (a: int)
    ensures t.totalAmount.Some? ==> a == t.totalAmount.value
    ensures t.totalAmount.None? ==> a == 0
  {
    t.totalAmount.GetOr(0)
  }

  /** The sum of the amounts of a list of transactions, as `reduce((s, t) => s + (t.totalAmount || 0), 0)`. */
  function SumAmounts(ts: seq<Transaction>): int
  {
    if ts == [] then 0 else SumAmounts(ts[..|ts| - 1]) + Amount(ts[|ts| - 1])
  }

  lemma {:induction false} SumAmountsAppend(a: seq<Transaction>, b: seq<Transaction>)
    ensures SumAmounts(a + b) == SumAmounts(a) + SumAmounts(b)
  {
    if b == [] {
      assert a + b == a;
    } else {
      assert (a + b)[..|a + b| - 1] == a + b[..|b| - 1];
      SumAmountsAppend(a, b[..|b| - 1]);
    }
  }

  /** The sum of the amounts of the transactions that satisfy `keep`, as a filter followed by a reduce. */
  function SumWhere(ts: seq<Transaction>, keep: Transaction -> bool): int
  {
    if ts == [] then 0
    else SumWhere(ts[..|ts| - 1], keep) + (if keep(ts[|ts| - 1]) then Amount(ts[|ts| - 1]) else 0)
  }

  /** The transactions that satisfy `keep`, in order. */
  function Where(ts: seq<Transaction>, keep: Transaction -> bool): (r: seq<Transaction>)
    ensures forall t :: t in r <==> t in ts && keep(t)
    ensures |r| <= |ts|
  {
    if ts == [] then []
    else Where(ts[..|ts| - 1], keep) + (if keep(ts[|ts| - 1]) then [ts[|ts| - 1]] else [])
  }

  /** Filtering keeps order and multiplicity: it distributes over concatenation. */
  lemma {:induction false} WhereAppend(a: seq<Transaction>, b: seq<Transaction>, keep: Transaction -> bool)
    ensures Where(a + b, keep) == Where(a, keep) + Where(b, keep)
  {
    if b == [] {
      assert a + b == a;
    } else {
      assert (a + b)[..|a + b| - 1] == a + b[..|b| - 1];
      WhereAppend(a, b[..|b| - 1], keep);
    }
  }

  /** Filtering then summing is the one-pass conditional sum. */
  lemma {:induction false} SumWhereIsSumOfWhere(ts: seq<Transaction>, keep: Transaction -> bool)
    ensures SumWhere(ts, keep) == SumAmounts(Where(ts, keep))
  {
    if ts != [] {
      var init, last := ts[..|ts| - 1], ts[|ts| - 1];
      SumWhereIsSumOfWhere(init, keep);
      SumAmountsAppend(Where(init, keep), if keep(last) then [last] else []);
      assert [last][..0] == [];
    }
  }

  lemma {:induction false} SumWhereAppend(a: seq<Transaction>, b: seq<Transaction>, keep: Transaction -> bool)
    ensures SumWhere(a + b, keep) == SumWhere(a, keep) + SumWhere(b, keep)
  {
    if b == [] {
      assert a + b == a;
    } else {
      assert (a + b)[..|a + b| - 1] == a + b[..|b| - 1];
      SumWhereAppend(a, b[..|b| - 1], keep);
    }
  }

  /** Taking one element out of the middle of a list takes its share out of the conditional sum. */
  lemma SumWhereSplit(b: seq<Transaction>, k: int, keep: Transaction -> bool)
    requires 0 <= k < |b|
    ensures SumWhere(b, keep) == SumWhere(b[..k] + b[k + 1..], keep) + SumWhere([b[k]], keep)
  {
    var front, back := b[..k], b[k + 1..];
    var withX := b[..k + 1];
    assert b == withX + back;
    assert withX == front + [b[k]];
    SumWhereAppend(withX, back, keep);
    SumWhereAppend(front, [b[k]], keep);
    SumWhereAppend(front, back, keep);
  }

  lemma MultisetWithout(b: seq<Transaction>, k: int)
    requires 0 <= k < |b|
    ensures multiset(b[..k] + b[k + 1..]) == multiset(b) - multiset{b[k]}
  {
    assert b == b[..k] + [b[k]] + b[k + 1..];
    assert multiset(b) == multiset(b[..k]) + multiset{b[k]} + multiset(b[k + 1..]);
  }

  lemma MultisetTail(a: seq<Transaction>)
    requires a != []
    ensures multiset(a[1..]) == multiset(a) - multiset{a[0]}
  {
    assert a == [a[0]] + a[1..];
  }

  lemma SumWhereTail(a: seq<Transaction>, keep: Transaction -> bool)
    requires a != []
    ensures SumWhere(a, keep) == SumWhere(a[1..], keep) + SumWhere([a[0]], keep)
  {
    assert a == [a[0]] + a[1..];
    SumWhereAppend([a[0]], a[1..], keep);
  }

  /** A conditional sum does not depend on the order of the transactions. */
  lemma {:induction false} SumWherePermutation(a: seq<Transaction>, b: seq<Transaction>, keep: Transaction -> bool)
    requires multiset(a) == multiset(b)
    ensures SumWhere(a, keep) == SumWhere(b, keep)
    decreases |a|
  {
    if a == [] {
      assert |b| == |multiset(b)| == 0;
    } else {
      var x := a[0];
      assert x in multiset(b);
      var k :| 0 <= k < |b| && b[k] == x;
      var rest := b[..k] + b[k + 1..];
      MultisetWithout(b, k);
      MultisetTail(a);
      SumWherePermutation(a[1..], rest, keep);
      SumWhereTail(a, keep);
      SumWhereSplit(b, k, keep);
    }
  }
}
