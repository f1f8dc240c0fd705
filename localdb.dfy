/**
 * The on-device SQLite cache (src/services/dbService.ts): a `products` and a
 * `transactions` table, each keyed by its `id` column. A table is a map from
 * primary key to row. A failing statement or transaction is an `ioError`
 * argument: the code catches every such failure, logs it, and carries on.
 */
module LocalDb {
  import opened Records
  import Ordering

  // ---------------------------------------------------------------------
  // INSERT OR REPLACE over a batch, in list order

  /** The table after replacing, in batch order, the row under each element's key. */
  function UpsertAll<T, R>(table: map<string, R>, batch: seq<T>, key: T -> string, row: T -> R): map<string, R>
  {
    if batch == [] then table
    else UpsertAll(table, batch[..|batch| - 1], key, row)[key(batch[|batch| - 1]) := row(batch[|batch| - 1])]
  }

  /** The last element of the batch with key `k`, if any. */
  function LastWithKey<T>(batch: seq<T>, key: T -> string, k: string): (r: Option<T>)
    ensures r.None? <==> forall x :: x in batch ==> key(x) != k
    ensures r.Some? ==> r.value in batch && key(r.value) == k
    ensures r.Some? ==> exists i :: 0 <= i < |batch| && batch[i] == r.value && NoLaterKey(batch, key, k, i)
  {
    if batch == [] then None
    else if key(batch[|batch| - 1]) == k then Some(batch[|batch| - 1])
    else
      var init := batch[..|batch| - 1];
      assert batch == init + [batch[|batch| - 1]];
      var r := LastWithKey(init, key, k);
      assert r.Some? ==> exists i :: 0 <= i < |batch| && batch[i] == r.value && NoLaterKey(batch, key, k, i) by {
        if r.Some? {
          var i :| 0 <= i < |init| && init[i] == r.value && NoLaterKey(init, key, k, i);
          assert batch[i] == r.value;
        }
      }
      r
  }

  /** No element after index `i` has key `k`. */
  predicate NoLaterKey<T>(batch: seq<T>, key: T -> string, k: string, i: int)
  {
    forall j :: 0 <= j < |batch| && i < j ==> key(batch[j]) != k
  }

  /** The batch without the elements at the `failing` indices, in order. */
  function Kept<T>(batch: seq<T>, failing: set<int>): (r: seq<T>)
    ensures forall x :: x in r ==> x in batch
    ensures forall i :: 0 <= i < |batch| && i !in failing ==> batch[i] in r
    ensures (forall i :: 0 <= i < |batch| ==> i !in failing) ==> r == batch
    ensures forall x :: x in r ==> exists i :: 0 <= i < |batch| && i !in failing && batch[i] == x
    ensures |r| <= |batch|
  {
    if batch == [] then []
    else
      var init := batch[..|batch| - 1];
      assert batch == init + [batch[|batch| - 1]];
      Kept(init, failing) + (if |batch| - 1 in failing then [] else [batch[|batch| - 1]])
  }

  /** Saving the first `i + 1` statements: what saving the first `i` kept, plus statement `i` unless it fails. */
  lemma KeptStep<T, R>(table: map<string, R>, batch: seq<T>, failing: set<int>, i: int, key: T -> string, row: T -> R)
    requires 0 <= i < |batch|
    ensures UpsertAll(table, Kept(batch[..i + 1], failing), key, row)
            == if i in failing then UpsertAll(table, Kept(batch[..i], failing), key, row)
               else UpsertAll(table, Kept(batch[..i], failing), key, row)[key(batch[i]) := row(batch[i])]
  {
    var prefix := batch[..i + 1];
    assert prefix[..i] == batch[..i];
    assert Kept(prefix, failing) == Kept(batch[..i], failing) + (if i in failing then [] else [batch[i]]);
    if i in failing {
      assert Kept(prefix, failing) == Kept(batch[..i], failing);
    } else {
      UpsertAllSnoc(table, Kept(batch[..i], failing), batch[i], key, row);
    }
  }

  lemma UpsertAllSnoc<T, R>(table: map<string, R>, batch: seq<T>, x: T, key: T -> string, row: T -> R)
    ensures UpsertAll(table, batch + [x], key, row) == UpsertAll(table, batch, key, row)[key(x) := row(x)]
  {
    assert (batch + [x])[..|batch|] == batch;
  }

  /**
   * After an upsert batch, a key of the batch holds the row of the last
   * element with that key; every other key is present, and holds its row,
   * exactly as before.
   */
  lemma {:induction false} UpsertAllAt<T, R>(table: map<string, R>, batch: seq<T>, key: T -> string, row: T -> R, k: string)
    ensures LastWithKey(batch, key, k).Some? ==>
              k in UpsertAll(table, batch, key, row) && UpsertAll(table, batch, key, row)[k] == row(LastWithKey(batch, key, k).value)
    ensures LastWithKey(batch, key, k).None? ==>
              (k in UpsertAll(table, batch, key, row) <==> k in table)
              && (k in table ==> UpsertAll(table, batch, key, row)[k] == table[k])
  {
    if batch != [] {
      UpsertAllAt(table, batch[..|batch| - 1], key, row, k);
    }
  }

  /** Replaying the same batch changes nothing more. */
  lemma UpsertAllIdempotent<T, R>(table: map<string, R>, batch: seq<T>, key: T -> string, row: T -> R)
    ensures UpsertAll(UpsertAll(table, batch, key, row), batch, key, row) == UpsertAll(table, batch, key, row)
  {
    var once := UpsertAll(table, batch, key, row);
    var twice := UpsertAll(once, batch, key, row);
    forall k ensures (k in twice <==> k in once) && (k in once ==> twice[k] == once[k]) {
      UpsertAllAt(table, batch, key, row, k);
      UpsertAllAt(once, batch, key, row, k);
    }
  }

  // ---------------------------------------------------------------------
  // The `items` column: JSON.stringify / JSON.parse at the level of tokens

  /** A JSON token; string escaping inside `Str` and `Key` is below this level. */
  datatype Token = ArrayStart | ArrayEnd | ObjectStart | ObjectEnd | Key(name: string) | Str(s: string) | Num(n: int)

  /** The tokens of one receipt line, its properties in declaration order. */
  function EncodeItem(item: TransactionItem): (ts: seq<Token>)
    ensures |ts| == 12 && ts[0] == ObjectStart && ts[11] == ObjectEnd
  {
    [ObjectStart,
     Key("productId"), Str(item.productId),
     Key("productName"), Str(item.productName),
     Key("price"), Num(item.price),
     Key("quantity"), Num(item.quantity),
     Key("subtotal"), Num(item.subtotal),
     ObjectEnd]
  }

  function DecodeItem(ts: seq<Token>): Option<TransactionItem>
    requires |ts| == 12
  {
    if && ts[0] == ObjectStart
       && ts[1] == Key("productId") && ts[2].Str?
       && ts[3] == Key("productName") && ts[4].Str?
       && ts[5] == Key("price") && ts[6].Num?
       && ts[7] == Key("quantity") && ts[8].Num?
       && ts[9] == Key("subtotal") && ts[10].Num?
       && ts[11] == ObjectEnd
    then Some(TransactionItem(ts[2].s, ts[4].s, ts[6].n, ts[8].n, ts[10].n))
    else None
  }

  function EncodeItems(items: seq<TransactionItem>): (ts: seq<Token>)
    ensures |ts| == 12 * |items|
  {
    if items == [] then [] else EncodeItem(items[0]) + EncodeItems(items[1..])
  }

  function DecodeItems(ts: seq<Token>): Option<seq<TransactionItem>>
    decreases |ts|
  {
    if ts == [] then Some([])
    else if |ts| < 12 then None
    else
      match (DecodeItem(ts[..12]), DecodeItems(ts[12..]))
      case (Some(item), Some(rest)) => Some([item] + rest)
      case _ => None
  }

  /** `JSON.stringify(items)` */
  function Encode(items: seq<TransactionItem>): (ts: seq<Token>)
    ensures |ts| >= 2 && ts[0] == ArrayStart && ts[|ts| - 1] == ArrayEnd
  {
    [ArrayStart] + EncodeItems(items) + [ArrayEnd]
  }

  /**
   * `JSON.parse(json)` for the text `Encode` writes: `None` where the parser
   * would throw. Token lists that parse as JSON of another shape are not
   * distinguished from unparsable ones; the column only ever holds `Encode`'s output.
   */
  function Decode(ts: seq<Token>): Option<seq<TransactionItem>>
  {
    if |ts| >= 2 && ts[0] == ArrayStart && ts[|ts| - 1] == ArrayEnd then DecodeItems(ts[1..|ts| - 1]) else None
  }

  lemma {:induction false} DecodeEncodeItems(items: seq<TransactionItem>)
    ensures DecodeItems(EncodeItems(items)) == Some(items)
  {
    if items != [] {
      var ts := EncodeItems(items);
      assert ts[..12] == EncodeItem(items[0]);
      assert ts[12..] == EncodeItems(items[1..]);
      assert DecodeItem(ts[..12]) == Some(items[0]);
      DecodeEncodeItems(items[1..]);
      assert DecodeItems(ts) == Some([items[0]] + items[1..]);
      assert items == [items[0]] + items[1..];
    }
  }

  /** What the `items` column holds reads back as the items that were written. */
  lemma DecodeEncode(items: seq<TransactionItem>)
    ensures Decode(Encode(items)) == Some(items)
  {
    assert Encode(items)[1..|Encode(items)| - 1] == EncodeItems(items);
    DecodeEncodeItems(items);
  }

  // ---------------------------------------------------------------------
  // Rows

  /** A product as handed to `saveProductsLocal`; its image may be missing. */
  datatype ProductInput = ProductInput(id: string, name: string, price: int, stock: int, image: Option<string>)

  function InputKey(p: ProductInput): string { p.id }

  /** The values bound to the INSERT: a missing image is stored as `''`. */
  function ProductRow(p: ProductInput): (r: Product)
    ensures r.id == p.id && r.name == p.name && r.price == p.price && r.stock == p.stock
    ensures p.image.None? ==> r.image == ""
    ensures p.image.Some? ==> r.image == p.image.value
  {
    Product(p.id, p.name, p.price, p.stock, p.image.GetOr(""))
  }

  /** A row of the `transactions` table: the items are stored as JSON text. */
  datatype TransactionRow = TransactionRow(
    id: string, userId: string, items: seq<Token>, totalAmount: Option<int>,
    status: Status, createdAt: int, updatedAt: int)

  function TransactionKey(t: Transaction): string { t.id }

  function RowCreatedAt(r: TransactionRow): int { r.createdAt }

  function TransactionRowOf(t: Transaction): (r: TransactionRow)
    ensures r.id == t.id && r.createdAt == t.createdAt
  {
    TransactionRow(t.id, t.userId, Encode(t.items), t.totalAmount, t.status, t.createdAt, t.updatedAt)
  }

  /** `{ ...item, items: JSON.parse(item.items) }` */
  function ReadTransaction(r: TransactionRow): (t: Option<Transaction>)
    ensures t.Some? ==> t.value.id == r.id && t.value.createdAt == r.createdAt
  {
    match Decode(r.items)
    case None => None
    case Some(items) => Some(Transaction(r.id, r.userId, items, r.totalAmount, r.status, r.createdAt, r.updatedAt))
  }

  /** Every transaction written to the table reads back unchanged. */
  lemma ReadWritten(t: Transaction)
    ensures ReadTransaction(TransactionRowOf(t)) == Some(t)
  {
    DecodeEncode(t.items);
  }

  function ProductId(p: Product): string { p.id }

  function RowId(r: TransactionRow): string { r.id }

  /** The statement loop of a save: upsert each element in order, skipping the failing statements. */
  method StageUpserts<T, R>(table: map<string, R>, batch: seq<T>, failing: set<int>, key: T -> string, row: T -> R)
    returns (staged: map<string, R>)
    ensures staged == UpsertAll(table, Kept(batch, failing), key, row)
  {
    staged := table;
    for i := 0 to |batch|
      invariant staged == UpsertAll(table, Kept(batch[..i], failing), key, row)
    {
      KeptStep(table, batch, failing, i, key, row);
      if i !in failing {
        staged := staged[key(batch[i]) := row(batch[i])];
      }
    }
    assert batch[..|batch|] == batch;
  }

  /** When every row is stored under its own key, upserting rows made from the batch keeps it so. */
  lemma {:induction false} UpsertKeepsKeys<T, R>(table: map<string, R>, batch: seq<T>, key: T -> string, row: T -> R,
                                                 rowKey: R -> string)
    requires forall k :: k in table ==> rowKey(table[k]) == k
    requires forall x :: rowKey(row(x)) == key(x)
    ensures forall k :: k in UpsertAll(table, batch, key, row) ==> rowKey(UpsertAll(table, batch, key, row)[k]) == k
  {
    if batch != [] {
      UpsertKeepsKeys(table, batch[..|batch| - 1], key, row, rowKey);
    }
  }

  // ---------------------------------------------------------------------
  // Queries

  /**
   * `SELECT * FROM table`: every row once, in an order the engine chooses
   * (returned as `keys`, the primary key of each row).
   */
  method SelectAll<R>(table: map<string, R>) returns (rows: seq<R>, keys: seq<string>)
    ensures |rows| == |keys| == |table|
    ensures forall i, j :: 0 <= i < j < |keys| ==> keys[i] != keys[j]
    ensures forall k :: k in table <==> k in keys
    ensures forall i :: 0 <= i < |keys| ==> keys[i] in table && rows[i] == table[keys[i]]
  {
    rows, keys := [], [];
    var remaining := table.Keys;
    while remaining != {}
      invariant remaining <= table.Keys
      invariant |rows| == |keys|
      invariant |keys| + |remaining| == |table|
      invariant forall i, j :: 0 <= i < j < |keys| ==> keys[i] != keys[j]
      invariant forall k :: k in table <==> k in keys || k in remaining
      invariant forall k :: k in keys ==> k !in remaining
      invariant forall i :: 0 <= i < |keys| ==> keys[i] in table && rows[i] == table[keys[i]]
      decreases remaining
    {
      var k :| k in remaining;
      rows, keys := rows + [table[k]], keys + [k];
      remaining := remaining - {k};
    }
  }

  class Database {
    var products: map<string, Product>
    var transactions: map<string, TransactionRow>

    /** Every row sits under its own `id`. */
    ghost predicate Valid()
      reads this
    {
      && (forall k :: k in products ==> products[k].id == k)
      && (forall k :: k in transactions ==> transactions[k].id == k)
    }

    /** `createTables` on a new database file: both tables exist and are empty. */
    constructor ()
      ensures Valid() && products == map[] && transactions == map[]
    {
      products, transactions := map[], map[];
    }

    /**
     * `saveProductsLocal(db, batch)`: nothing for an empty batch; otherwise
     * one INSERT OR REPLACE per product, in order, inside one SQLite
     * transaction. A statement that fails (its index in `failing`) has its
     * error callback return `false`, which marks the error handled: that row
     * is skipped and the others commit. `ioError` is a failure of the
     * transaction itself, which the catch block logs; nothing is written.
     */
    method SaveProducts(batch: seq<ProductInput>, failing: set<int>, ioError: bool)
      requires Valid()
      modifies this
      ensures Valid()
      ensures products == if batch == [] || ioError then old(products)
                          else UpsertAll(old(products), Kept(batch, failing), InputKey, ProductRow)
      ensures transactions == old(transactions)
    {
      if batch == [] {
        return;
      }
      var staged := StageUpserts(products, batch, failing, InputKey, ProductRow);
      UpsertKeepsKeys(products, Kept(batch, failing), InputKey, ProductRow, ProductId);
      if !ioError {
        products := staged;
      }
    }

    /** `saveTransactionsLocal(db, batch)`: the same, writing `items` as JSON. */
    method SaveTransactions(batch: seq<Transaction>, failing: set<int>, ioError: bool)
      requires Valid()
      modifies this
      ensures Valid()
      ensures transactions == if batch == [] || ioError then old(transactions)
                              else UpsertAll(old(transactions), Kept(batch, failing), TransactionKey, TransactionRowOf)
      ensures products == old(products)
    {
      if batch == [] {
        return;
      }
      var staged := StageUpserts(transactions, batch, failing, TransactionKey, TransactionRowOf);
      UpsertKeepsKeys(transactions, Kept(batch, failing), TransactionKey, TransactionRowOf, RowId);
      if !ioError {
        transactions := staged;
      }
    }

    /** `deleteProductLocal(db, id)`: removes the row with that key, if any. */
    method DeleteProduct(id: string, ioError: bool)
      requires Valid()
      modifies this
      ensures Valid()
      ensures products == if ioError then old(products) else old(products) - {id}
      ensures transactions == old(transactions)
    {
      if !ioError {
        products := products - {id};
      }
    }

    /** `getProductsLocal(db)`: every stored product exactly once, or `[]` when the query fails. */
    method GetProducts(ioError: bool) returns (result: seq<Product>)
      requires Valid()
      ensures ioError ==> result == []
      ensures !ioError ==> |result| == |products|
      ensures !ioError ==> forall p :: p in result <==> p.id in products && products[p.id] == p
      ensures forall i, j :: 0 <= i < j < |result| ==> result[i].id != result[j].id
    {
      if ioError {
        return [];
      }
      var keys;
      result, keys := SelectAll(products);
      forall p: Product | p.id in products && products[p.id] == p ensures p in result {
        var i :| 0 <= i < |keys| && keys[i] == p.id;
      }
    }

    /**
     * `getTransactionsLocal(db)`: the rows ordered by `createdAt` newest
     * first, each with its `items` parsed; `[]` when the query fails or any
     * row's items do not parse.
     */
    method GetTransactions(ioError: bool) returns (result: seq<Transaction>)
      requires Valid()
      ensures ioError ==> result == []
      ensures Ordering.NewestFirst(result, CreatedAt)
      ensures !ioError && (forall k :: k in transactions ==> ReadTransaction(transactions[k]).Some?) ==>
                |result| == |transactions|
                && forall t :: t in result <==> t.id in transactions && ReadTransaction(transactions[t.id]) == Some(t)
      ensures (exists k :: k in transactions && ReadTransaction(transactions[k]).None?) ==> result == []
    {
      if ioError {
        return [];
      }
      var scanned, keys := SelectAll(transactions);
      var rows := Ordering.SortNewestFirst(scanned, RowCreatedAt);
      assert forall r :: r in rows <==> r in scanned by {
        forall r ensures r in rows <==> r in scanned {
          assert r in rows <==> r in multiset(rows);
          assert r in scanned <==> r in multiset(scanned);
        }
      }
      result := ReadAll(rows);
      if exists r :: r in rows && ReadTransaction(r).None? {
        return;
      }
      ReadBackCovers(transactions, scanned, keys, rows, result);
    }
  }

  /** Reading back a complete scan of the table, in any order, yields each stored transaction once. */
  lemma ReadBackCovers(table: map<string, TransactionRow>, scanned: seq<TransactionRow>, keys: seq<string>,
                       rows: seq<TransactionRow>, result: seq<Transaction>)
    requires forall k :: k in table ==> table[k].id == k
    requires |scanned| == |keys| == |table|
    requires forall k :: k in table <==> k in keys
    requires forall i :: 0 <= i < |keys| ==> keys[i] in table && scanned[i] == table[keys[i]]
    requires forall r :: r in rows <==> r in scanned
    requires |result| == |rows| == |scanned|
    requires forall j :: 0 <= j < |rows| ==> ReadTransaction(rows[j]) == Some(result[j])
    ensures forall k :: k in table ==> ReadTransaction(table[k]).Some?
    ensures forall t :: t in result <==> t.id in table && ReadTransaction(table[t.id]) == Some(t)
  {
    forall t | t in result ensures t.id in table && ReadTransaction(table[t.id]) == Some(t) {
      var j :| 0 <= j < |result| && result[j] == t;
      assert rows[j] in scanned;
      var i :| 0 <= i < |scanned| && scanned[i] == rows[j];
    }
    forall t: Transaction | t.id in table && ReadTransaction(table[t.id]) == Some(t) ensures t in result {
      var i :| 0 <= i < |keys| && keys[i] == t.id;
      assert scanned[i] in rows;
      var j :| 0 <= j < |rows| && rows[j] == scanned[i];
      assert result[j] == t;
    }
    forall k | k in table ensures ReadTransaction(table[k]).Some? {
      var i :| 0 <= i < |keys| && keys[i] == k;
      assert scanned[i] in rows;
      var j :| 0 <= j < |rows| && rows[j] == scanned[i];
    }
  }

  /**
   * The read loop of `getTransactionsLocal`: parse each row's `items` in
   * order; a row that does not parse throws, and the whole read returns `[]`.
   */
  method ReadAll(rows: seq<TransactionRow>) returns (result: seq<Transaction>)
    ensures (forall r :: r in rows ==> ReadTransaction(r).Some?) ==>
              |result| == |rows| && forall j :: 0 <= j < |rows| ==> ReadTransaction(rows[j]) == Some(result[j])
    ensures (exists r :: r in rows && ReadTransaction(r).None?) ==> result == []
    ensures Ordering.NewestFirst(rows, RowCreatedAt) ==> Ordering.NewestFirst(result, CreatedAt)
  {
    result := [];
    for i := 0 to |rows|
      invariant |result| == i
      invariant forall j :: 0 <= j < i ==> ReadTransaction(rows[j]) == Some(result[j])
    {
      var read := ReadTransaction(rows[i]);
      if read.None? {
        return [];
      }
      result := result + [read.value];
    }
  }
}
