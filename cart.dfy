/**
 * The cashier screen (src/screens/TransactionScreen.tsx): a cart that maps
 * product ids to quantities, its totals, the checkout that turns it into a
 * transaction and lowers stock, and the product-name search.
 *
 * The cart is a JavaScript object, whose keys enumerate in insertion order;
 * checkout builds its receipt lines and stock writes in that order. The model
 * therefore keeps the key order (`keys`) beside the quantities (`qty`).
 */
module Cashier {
  import opened Records

  /** `products.find(p => p.id === id)`: the first product with that id, if any. */
  function Find(products: seq<Product>, id: string): (r: Option<Product>)
    ensures r.None? <==> forall p :: p in products ==> p.id != id
    ensures r.Some? ==> r.value.id == id && r.value in products
    ensures forall j {:trigger FirstWithId(products, id, j)} ::
              0 <= j < |products| && products[j].id == id && FirstWithId(products, id, j) ==> r == Some(products[j])
  {
    if products == [] then None
    else if products[0].id == id then Some(products[0])
    else
      var r := Find(products[1..], id);
      assert forall p :: p in products[1..] ==> p in products;
      forall j | 0 <= j < |products| && products[j].id == id && FirstWithId(products, id, j)
        ensures r == Some(products[j])
      {
        assert j > 0 && products[1..][j - 1] == products[j];
        assert FirstWithId(products[1..], id, j - 1) by {
          forall m | 0 <= m < j - 1 ensures products[1..][m].id != id {
            assert products[1..][m] == products[m + 1];
          }
        }
      }
      r
  }

  /** No product before index `j` has the id. */
  predicate FirstWithId(products: seq<Product>, id: string, j: int)
    requires 0 <= j <= |products|
  {
    forall m :: 0 <= m < j ==> products[m].id != id
  }

  /** The cart's value: its keys in enumeration order and the quantity per key. */
  datatype CartState = CartState(keys: seq<string>, qty: map<string, int>)

  ghost predicate Distinct(s: seq<string>)
  {
    forall i, j :: 0 <= i < j < |s| ==> s[i] != s[j]
  }

  /** What the screen's updates keep: each key once, the keys are the map's, every quantity positive. */
  ghost predicate WellFormed(c: CartState)
  {
    && Distinct(c.keys)
    && (forall k :: k in c.qty <==> k in c.keys)
    && (forall k :: k in c.qty ==> c.qty[k] >= 1)
  }

  /** Every quantity in the cart is backed by a product with at least that much stock. */
  ghost predicate WithinStock(products: seq<Product>, c: CartState)
  {
    forall k :: k in c.qty ==> Find(products, k).Some? && c.qty[k] <= Find(products, k).value.stock
  }

  /** `cart[id] || 0` */
  function Quantity(c: CartState, id: string): (n: int)
    ensures id !in c.qty ==> n == 0
    ensures id in c.qty ==> n == c.qty[id]
  {
    if id in c.qty then c.qty[id] else 0
  }

  /** The guard of `addToCart`: the product exists and its quantity is still below its stock. */
  predicate CanAdd(products: seq<Product>, c: CartState, id: string)
  {
    Find(products, id).Some? && Quantity(c, id) < Find(products, id).value.stock
  }

  /** `{ ...prev, [id]: (prev[id] || 0) + 1 }`: a new key goes last, an existing key keeps its place. */
  function Increment(c: CartState, id: string): (r: CartState)
    ensures id in r.qty && r.qty[id] == Quantity(c, id) + 1
    ensures forall k :: k != id ==> (k in r.qty <==> k in c.qty)
    ensures forall k :: k != id && k in c.qty ==> r.qty[k] == c.qty[k]
    ensures id in c.keys ==> r.keys == c.keys
    ensures id !in c.keys ==> r.keys == c.keys + [id]
  {
    CartState(if id in c.keys then c.keys else c.keys + [id], c.qty[id := Quantity(c, id) + 1])
  }

  /** `s` without `id`, as deleting a key removes it from the enumeration order. */
  function Without(s: seq<string>, id: string): (r: seq<string>)
    ensures forall k :: k in r <==> k in s && k != id
    ensures id !in s ==> r == s
  {
    if s == [] then []
    else if s[|s| - 1] == id then Without(s[..|s| - 1], id)
    else
      assert s == s[..|s| - 1] + [s[|s| - 1]];
      Without(s[..|s| - 1], id) + [s[|s| - 1]]
  }

  /** `removeFromCart`: decrement a quantity above 1, otherwise delete the key (a no-op when absent). */
  function Decrement(c: CartState, id: string): (r: CartState)
    ensures id in c.qty && c.qty[id] > 1 ==> id in r.qty && r.qty[id] == c.qty[id] - 1 && r.keys == c.keys
    ensures !(id in c.qty && c.qty[id] > 1) ==> id !in r.qty && r.keys == Without(c.keys, id)
    ensures id !in c.qty && id !in c.keys ==> r == c
    ensures forall k :: k != id ==> (k in r.qty <==> k in c.qty)
    ensures forall k :: k != id && k in c.qty ==> r.qty[k] == c.qty[k]
  {
    if id in c.qty && c.qty[id] > 1 then CartState(c.keys, c.qty[id := c.qty[id] - 1])
    else CartState(Without(c.keys, id), c.qty - {id})
  }

  /** Deleting a key keeps the order of the others: it distributes over concatenation. */
  lemma {:induction false} WithoutAppend(a: seq<string>, b: seq<string>, id: string)
    ensures Without(a + b, id) == Without(a, id) + Without(b, id)
  {
    if b == [] {
      assert a + b == a;
    } else {
      assert (a + b)[..|a + b| - 1] == a + b[..|b| - 1];
      WithoutAppend(a, b[..|b| - 1], id);
    }
  }

  lemma {:induction false} WithoutDistinct(s: seq<string>, id: string)
    requires Distinct(s)
    ensures Distinct(Without(s, id))
  {
    if s != [] {
      var init, last := s[..|s| - 1], s[|s| - 1];
      assert Distinct(init);
      WithoutDistinct(init, id);
      if last != id {
        assert last !in init;
        var r := Without(init, id) + [last];
        forall i, j | 0 <= i < j < |r| ensures r[i] != r[j] {
          if j == |r| - 1 { assert r[i] in Without(init, id); }
        }
      }
    }
  }

  /** Both cart updates keep the cart well formed. */
  lemma IncrementWellFormed(c: CartState, id: string)
    requires WellFormed(c)
    ensures WellFormed(Increment(c, id))
  {
    var r := Increment(c, id);
    if id !in c.keys {
      forall i, j | 0 <= i < j < |r.keys| ensures r.keys[i] != r.keys[j] {
        if j == |c.keys| { assert r.keys[i] == c.keys[i]; }
      }
    }
  }

  lemma DecrementWellFormed(c: CartState, id: string)
    requires WellFormed(c)
    ensures WellFormed(Decrement(c, id))
  {
    if !(id in c.qty && c.qty[id] > 1) {
      WithoutDistinct(c.keys, id);
    }
  }

  /** With the product list fixed, a guarded add and any remove keep every quantity within its product's stock. */
  lemma IncrementWithinStock(products: seq<Product>, c: CartState, id: string)
    requires WithinStock(products, c)
    requires CanAdd(products, c, id)
    ensures WithinStock(products, Increment(c, id))
  {
  }

  lemma DecrementWithinStock(products: seq<Product>, c: CartState, id: string)
    requires WithinStock(products, c)
    ensures WithinStock(products, Decrement(c, id))
  {
  }

  lemma {:induction false} WithoutAppended(s: seq<string>, id: string)
    requires id !in s
    ensures Without(s + [id], id) == s
  {
    assert (s + [id])[..|s + [id]| - 1] == s;
  }

  /** A successful add followed by a remove of the same id gives back the cart as it was. */
  lemma AddThenRemove(products: seq<Product>, c: CartState, id: string)
    requires WellFormed(c)
    requires CanAdd(products, c, id)
    ensures Decrement(Increment(c, id), id) == c
  {
    var r := Increment(c, id);
    if id in c.qty {
      assert r.qty[id := r.qty[id] - 1] == c.qty;
    } else {
      WithoutAppended(c.keys, id);
      assert r.qty - {id} == c.qty;
    }
  }

  /** One cart line's contribution to `total`: ids with no product contribute nothing. */
  function LineValue(products: seq<Product>, id: string, q: int): int
  {
    match Find(products, id)
    case None => 0
    case Some(p) => p.price * q
  }

  /** `total`: the sum of price times quantity over the cart's keys. */
  function Total(products: seq<Product>, keys: seq<string>, qty: map<string, int>): (r: int)
    requires forall k :: k in keys ==> k in qty
    ensures (forall p :: p in products ==> p.price >= 0) && (forall k :: k in keys ==> qty[k] >= 0) ==> r >= 0
  {
    if keys == [] then 0
    else Total(products, keys[..|keys| - 1], qty) + LineValue(products, keys[|keys| - 1], qty[keys[|keys| - 1]])
  }

  /** `totalQty`: the sum of all quantities. */
  function TotalQty(keys: seq<string>, qty: map<string, int>): (r: int)
    requires forall k :: k in keys ==> k in qty
    ensures (forall k :: k in keys ==> qty[k] >= 1) ==> r >= |keys|
  {
    if keys == [] then 0 else TotalQty(keys[..|keys| - 1], qty) + qty[keys[|keys| - 1]]
  }

  lemma {:induction false} TotalsIgnoreOtherKeys(products: seq<Product>, keys: seq<string>, qty: map<string, int>, id: string, n: int)
    requires forall k :: k in keys ==> k in qty
    requires id !in keys
    ensures Total(products, keys, qty[id := n]) == Total(products, keys, qty)
    ensures TotalQty(keys, qty[id := n]) == TotalQty(keys, qty)
  {
    if keys != [] {
      TotalsIgnoreOtherKeys(products, keys[..|keys| - 1], qty, id, n);
    }
  }

  lemma {:induction false} TotalsAtKey(products: seq<Product>, keys: seq<string>, qty: map<string, int>, id: string)
    requires forall k :: k in keys ==> k in qty
    requires Distinct(keys) && id in keys
    ensures Total(products, keys, qty[id := qty[id] + 1]) == Total(products, keys, qty) + LineValue(products, id, 1)
    ensures TotalQty(keys, qty[id := qty[id] + 1]) == TotalQty(keys, qty) + 1
  {
    var init, last := keys[..|keys| - 1], keys[|keys| - 1];
    if last == id {
      assert id !in init;
      TotalsIgnoreOtherKeys(products, init, qty, id, qty[id] + 1);
    } else {
      assert id in init;
      TotalsAtKey(products, init, qty, id);
    }
  }

  /** A successful add raises `total` by the product's price and `totalQty` by one. */
  lemma AddRaisesTotals(products: seq<Product>, c: CartState, id: string)
    requires WellFormed(c)
    requires CanAdd(products, c, id)
    ensures Total(products, Increment(c, id).keys, Increment(c, id).qty)
            == Total(products, c.keys, c.qty) + Find(products, id).value.price
    ensures TotalQty(Increment(c, id).keys, Increment(c, id).qty) == TotalQty(c.keys, c.qty) + 1
  {
    var r := Increment(c, id);
    if id in c.keys {
      TotalsAtKey(products, c.keys, c.qty, id);
    } else {
      assert r.keys[..|r.keys| - 1] == c.keys;
      TotalsIgnoreOtherKeys(products, c.keys, c.qty, id, 1);
    }
  }

  /** One receipt line: the product's id, name and price, the quantity, and `price * quantity`. */
  function Item(p: Product, quantity: int): (item: TransactionItem)
    ensures item.productId == p.id && item.productName == p.name && item.price == p.price
    ensures item.quantity == quantity && item.subtotal == p.price * quantity
  {
    TransactionItem(p.id, p.name, p.price, quantity, p.price * quantity)
  }

  /** The receipt lines, one per cart key in order; `None` when a key has no product (the code then throws). */
  function BuildItems(products: seq<Product>, keys: seq<string>, qty: map<string, int>): (r: Option<seq<TransactionItem>>)
    requires forall k :: k in keys ==> k in qty
    ensures r.None? <==> exists k :: k in keys && Find(products, k).None?
    ensures r.Some? ==> |r.value| == |keys|
    ensures r.Some? ==> forall i :: 0 <= i < |keys| ==> r.value[i] == Item(Find(products, keys[i]).value, qty[keys[i]])
  {
    if keys == [] then Some([])
    else
      var init, last := keys[..|keys| - 1], keys[|keys| - 1];
      assert keys == init + [last];
      var prefix := BuildItems(products, init, qty);
      var found := Find(products, last);
      if found.None? then
        assert last in keys;
        None
      else if prefix.None? then
        assert forall k :: k in init ==> k in keys;
        None
      else
        var r := prefix.value + [Item(found.value, qty[last])];
        assert forall i :: 0 <= i < |init| ==> r[i] == prefix.value[i] && keys[i] == init[i];
        Some(r)
  }

  function SumSubtotals(items: seq<TransactionItem>): int
  {
    if items == [] then 0 else SumSubtotals(items[..|items| - 1]) + items[|items| - 1].subtotal
  }

  function SumQuantities(items: seq<TransactionItem>): int
  {
    if items == [] then 0 else SumQuantities(items[..|items| - 1]) + items[|items| - 1].quantity
  }

  /** The transaction's `totalAmount` (the screen's `total`) equals the sum of its line subtotals, and `totalQty` the sum of its quantities. */
  lemma {:induction false} ItemsAddUpToTotals(products: seq<Product>, keys: seq<string>, qty: map<string, int>)
    requires forall k :: k in keys ==> k in qty
    requires BuildItems(products, keys, qty).Some?
    ensures SumSubtotals(BuildItems(products, keys, qty).value) == Total(products, keys, qty)
    ensures SumQuantities(BuildItems(products, keys, qty).value) == TotalQty(keys, qty)
  {
    if keys != [] {
      var init := keys[..|keys| - 1];
      var items := BuildItems(products, keys, qty).value;
      assert BuildItems(products, init, qty).Some?;
      ItemsAddUpToTotals(products, init, qty);
      assert items[..|items| - 1] == BuildItems(products, init, qty).value;
    }
  }

  /** `updateProduct(id, { stock })` on the product list: every product with that id gets the new stock. */
  function SetStock(products: seq<Product>, id: string, stock: int): (r: seq<Product>)
    ensures |r| == |products|
    ensures forall i :: 0 <= i < |products| ==>
              r[i] == if products[i].id == id then products[i].(stock := stock) else products[i]
  {
    seq(|products|, i requires 0 <= i < |products| =>
      if products[i].id == id then products[i].(stock := stock) else products[i])
  }

  /** What checkout leaves of product `p`: its stock less the quantity bought, read from the product list before checkout. */
  function AfterCheckout(products: seq<Product>, c: CartState, p: Product): (r: Product)
    requires forall k :: k in c.keys ==> k in c.qty && Find(products, k).Some?
    ensures r.id == p.id && r.name == p.name && r.price == p.price && r.image == p.image
    ensures p.id !in c.keys ==> r == p
  {
    if p.id in c.keys then p.(stock := Find(products, p.id).value.stock - c.qty[p.id]) else p
  }

  /** The stock-update loop of checkout: one write per cart key, each from the stock the screen had loaded. */
  method WriteStock(products: seq<Product>, c: CartState) returns (updated: seq<Product>)
    requires forall k :: k in c.keys ==> k in c.qty && Find(products, k).Some?
    ensures |updated| == |products|
    ensures forall i :: 0 <= i < |products| ==> updated[i] == AfterCheckout(products, c, products[i])
  {
    updated := products;
    for n := 0 to |c.keys|
      invariant |updated| == |products|
      invariant forall i :: 0 <= i < |products| ==>
                  updated[i] == if products[i].id in c.keys[..n]
                                then products[i].(stock := Find(products, products[i].id).value.stock - c.qty[products[i].id])
                                else products[i]
    {
      var id := c.keys[n];
      assert c.keys[..n + 1] == c.keys[..n] + [id];
      updated := SetStock(updated, id, Find(products, id).value.stock - c.qty[id]);
    }
    assert c.keys[..|c.keys|] == c.keys;
  }

  /** Under the cart invariant no stock goes negative, and products not in the cart keep their stock. */
  lemma CheckoutStockNonNegative(products: seq<Product>, c: CartState, p: Product)
    requires WellFormed(c) && WithinStock(products, c)
    requires p in products
    ensures AfterCheckout(products, c, p).stock >= 0 || (p.id !in c.keys && p.stock < 0)
    ensures p.id in c.keys ==> AfterCheckout(products, c, p).stock == Find(products, p.id).value.stock - c.qty[p.id]
    ensures p.id !in c.keys ==> AfterCheckout(products, c, p) == p
  {
  }

  /** `catalogue` is the product list after checkout's stock writes for cart `c`. */
  ghost predicate Restocked(products: seq<Product>, c: CartState, catalogue: seq<Product>)
  {
    && (forall k :: k in c.keys ==> k in c.qty && Find(products, k).Some?)
    && |catalogue| == |products|
    && forall i :: 0 <= i < |products| ==> catalogue[i] == AfterCheckout(products, c, products[i])
  }

  /**
   * The receipt checkout shows: a completed transaction of `user` with one
   * line per cart key and `totalAmount` equal to the screen's `total`.
   */
  ghost predicate IsReceipt(products: seq<Product>, c: CartState, user: string, now: int, t: Transaction)
  {
    && (forall k :: k in c.keys ==> k in c.qty)
    && BuildItems(products, c.keys, c.qty).Some?
    && t == Transaction("local", user, BuildItems(products, c.keys, c.qty).value,
                        Some(Total(products, c.keys, c.qty)), Completed, now, now)
  }

  datatype CheckoutOutcome =
    | EmptyCart                    // nothing in the cart: return at once
    | NotSignedIn                  // no current user: alert, nothing changes
    | Failed                       // a cart key has no product: the item builder throws, nothing is written
    | Rejected(catalogue: seq<Product>)   // stock written, but the store refused the transaction; the cart stays
    | CheckedOut(receipt: Transaction, catalogue: seq<Product>)

  /** What checkout does with cart `c`, apart from emptying the cart after success. */
  ghost predicate IsCheckoutOf(products: seq<Product>, c: CartState, user: Option<string>, now: int, accepted: bool,
                               outcome: CheckoutOutcome)
  {
    && (c.keys == [] ==> outcome == EmptyCart)
    && (c.keys != [] && user.None? ==> outcome == NotSignedIn)
    && (c.keys != [] && user.Some? ==> (outcome == Failed <==> exists k :: k in c.keys && Find(products, k).None?))
    && (outcome.Rejected? || outcome.CheckedOut? ==> Restocked(products, c, outcome.catalogue))
    && (outcome.CheckedOut? ==> accepted && user.Some? && IsReceipt(products, c, user.value, now, outcome.receipt))
    && (outcome.Rejected? ==> !accepted)
    && (c.keys != [] && user.Some? && (forall k :: k in c.keys ==> Find(products, k).Some?) ==>
          if accepted then outcome.CheckedOut? else outcome.Rejected?)
  }

  /**
   * The steps of `handleCheckout` up to recording the transaction: stop on an
   * empty cart or a missing user, build the receipt lines, write the lowered
   * stock, then record the transaction.
   */
  method Settle(products: seq<Product>, c: CartState, user: Option<string>, now: int, accepted: bool)
    returns (outcome: CheckoutOutcome)
    requires forall k :: k in c.keys ==> k in c.qty
    ensures IsCheckoutOf(products, c, user, now, accepted, outcome)
  {
    if c.keys == [] {
      return EmptyCart;
    }
    if user.None? {
      return NotSignedIn;
    }
    var items := BuildItems(products, c.keys, c.qty);
    if items.None? {
      return Failed;
    }
    var catalogue := WriteStock(products, c);
    var receipt := Transaction("local", user.value, items.value, Some(Total(products, c.keys, c.qty)), Completed, now, now);
    if !accepted {
      return Rejected(catalogue);
    }
    outcome := CheckedOut(receipt, catalogue);
  }

  /** Name search: ASCII letters are lower-cased on both sides; other characters are compared as they are. */
  function LowerChar(ch: char): (r: char)
    ensures 'A' <= ch <= 'Z' ==> r as int == ch as int + 32
    ensures !('A' <= ch <= 'Z') ==> r == ch
  {
    if 'A' <= ch <= 'Z' then (ch as int + 32) as char else ch
  }

  function Lower(s: string): (r: string)
    ensures |r| == |s| && forall i :: 0 <= i < |s| ==> r[i] == LowerChar(s[i])
  {
    seq(|s|, i requires 0 <= i < |s| => LowerChar(s[i]))
  }

  predicate OccursAt(s: string, sub: string, i: int)
  {
    0 <= i <= |s| - |sub| && s[i..i + |sub|] == sub
  }

  /** `s.includes(sub)` */
  predicate Includes(s: string, sub: string)
  {
    exists i | 0 <= i <= |s| - |sub| :: OccursAt(s, sub, i)
  }

  /** The list the screen shows: the products whose name contains the query, ignoring case, in their order. */
  function Search(products: seq<Product>, query: string): (r: seq<Product>)
    ensures forall p :: p in r <==> p in products && Includes(Lower(p.name), Lower(query))
    ensures |r| <= |products|
  {
    if products == [] then []
    else
      var init := Search(products[..|products| - 1], query);
      var last := products[|products| - 1];
      assert products == products[..|products| - 1] + [last];
      if Includes(Lower(last.name), Lower(query)) then init + [last] else init
  }

  /** The search keeps catalogue order and multiplicity: it distributes over concatenation. */
  lemma {:induction false} SearchAppend(a: seq<Product>, b: seq<Product>, query: string)
    ensures Search(a + b, query) == Search(a, query) + Search(b, query)
  {
    if b == [] {
      assert a + b == a;
    } else {
      assert (a + b)[..|a + b| - 1] == a + b[..|b| - 1];
      SearchAppend(a, b[..|b| - 1], query);
    }
  }

  /** An empty query shows every product, in order. */
  lemma {:induction false} SearchEmptyQuery(products: seq<Product>)
    ensures Search(products, "") == products
  {
    if products != [] {
      var init := products[..|products| - 1];
      SearchEmptyQuery(init);
      assert OccursAt(Lower(products[|products| - 1].name), Lower(""), 0);
      assert products == init + [products[|products| - 1]];
    }
  }

  class Cart {
    var keys: seq<string>
    var qty: map<string, int>

    function State(): CartState
      reads this
    {
      CartState(keys, qty)
    }

    ghost predicate Valid()
      reads this
    {
      WellFormed(State())
    }

    /** `useState({})` */
    constructor ()
      ensures Valid() && keys == [] && qty == map[]
    {
      keys := [];
      qty := map[];
    }

    /**
     * `addToCart(id)`. Returns whether the item was added; when it was not,
     * the screen shows the out-of-stock alert and the cart is unchanged.
     */
    method AddToCart(products: seq<Product>, id: string) returns (added: bool)
      requires Valid()
      modifies this
      ensures Valid()
      ensures added == CanAdd(products, old(State()), id)
      ensures State() == if added then Increment(old(State()), id) else old(State())
      ensures old(WithinStock(products, State())) ==> WithinStock(products, State())
    {
      var product := Find(products, id);
      var current := Quantity(State(), id);
      added := product.Some? && current < product.value.stock;
      if added {
        var before := State();
        IncrementWellFormed(before, id);
        if WithinStock(products, before) {
          IncrementWithinStock(products, before, id);
        }
        var after := Increment(before, id);
        keys, qty := after.keys, after.qty;
      }
    }

    /** `removeFromCart(id)` */
    method RemoveFromCart(id: string)
      requires Valid()
      modifies this
      ensures Valid()
      ensures State() == Decrement(old(State()), id)
      ensures forall products :: old(WithinStock(products, State())) ==> WithinStock(products, State())
    {
      ghost var before := State();
      DecrementWellFormed(before, id);
      forall products | WithinStock(products, before) ensures WithinStock(products, Decrement(before, id)) {
        DecrementWithinStock(products, before, id);
      }
      if id in qty && qty[id] > 1 {
        qty := qty[id := qty[id] - 1];
      } else {
        keys := Without(keys, id);
        qty := qty - {id};
      }
    }

    /**
     * `handleCheckout()`. `user` is the signed-in user's id, `now` the clock
     * reading used for the transaction's timestamps, and `accepted` whether
     * the store accepted the new transaction document. The cart is emptied
     * only when the transaction was stored.
     */
    method Checkout(products: seq<Product>, user: Option<string>, now: int, accepted: bool)
      returns (outcome: CheckoutOutcome)
      requires Valid()
      modifies this
      ensures Valid()
      ensures IsCheckoutOf(products, old(State()), user, now, accepted, outcome)
      ensures if outcome.CheckedOut? then keys == [] && qty == map[] else State() == old(State())
    {
      outcome := Settle(products, State(), user, now, accepted);
      if outcome.CheckedOut? {
        keys, qty := [], map[];
      }
    }
  }
}
