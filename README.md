# larisinApp point-of-sale core in Dafny

larisinApp is a React Native point-of-sale app for small shops. A cashier
builds a cart from the product catalogue and checks it out. Checkout
records a completed transaction in a remote document store and lowers each
product's stock. The app also keeps an on-device SQLite cache of products
and transactions, announces changes on an app-wide event bus, and shows
today's and this week's revenue on its home screen.

This project models that core and proves properties of it:

- `records.dfy` (module `Records`): products, transactions, receipt lines,
  and the amount sums used by the revenue figures. The key fact is that a
  conditional sum does not depend on list order.
- `ordering.dfy` (module `Ordering`): newest-first order by `createdAt`.
  It has a functional stable insertion sort, used for the sorted copies.
  It also has an in-place insertion sort on an array, used for the
  listener's in-place `sort`.
- `cart.dfy` (module `Cashier`): the cashier screen. The class `Cart` holds
  the keys in JavaScript's insertion order and a quantity per key. The
  module covers add and remove, the two totals, checkout (receipt lines,
  stock writes, recording the transaction) and the product-name search.
- `localdb.dfy` (module `LocalDb`): the SQLite cache. The class `Database`
  holds one map per table, keyed by `id`. It has INSERT OR REPLACE
  batches, delete, and the two reads. The JSON `items` column is modelled
  at token level, with a round-trip proof.
- `eventbus.dfy` (module `Events`): the class `EventBus` with `on`, `off`,
  the unsubscribe closure, and `emit`. The handlers `emit` calls may
  subscribe, unsubscribe or throw.
- `txservice.dfy` (module `TransactionService`): the revenue total over a
  date window, the newest-first delivery of live snapshots, and the error
  message of a failed insert.
- `home.dfy` (module `Home`): daily and weekly revenue, and the sorted copy
  the home screen stores.

Timestamps are integers in milliseconds, so "newer" means "greater".
Money, prices and stock are integers. Anything that comes from outside the
code becomes a parameter: the clock reading, the signed-in user, whether
the store accepted a write, whether an SQLite call failed, what each event
handler does, and the device's calendar conversion.

## Model

| member | source | states |
|---|---|---|
| Records.Amount | src/services/transactionService.ts:138 | A missing `totalAmount` counts as 0; a present amount counts as itself. |
| Records.Where | src/screens/HomeScreen.tsx:14-21 | The filtered list holds exactly the transactions of the input that pass the test, and is no longer than the input. |
| Records.WhereAppend | src/screens/HomeScreen.tsx:30 | The filter keeps order and multiplicity, since it distributes over concatenation. |
| Records.SumWhereIsSumOfWhere | src/screens/HomeScreen.tsx:13-22 | Filtering and then summing equals the one-pass conditional sum. |
| Records.SumAmountsAppend | src/screens/HomeScreen.tsx:22 | The reduce over a concatenation is the sum of the reduces over the parts. |
| Records.SumWhereAppend | src/services/transactionService.ts:128-139 | The conditional sum over a concatenation is the sum over the parts. |
| Records.SumWherePermutation | src/services/transactionService.ts:128-139 | Two lists with the same multiset of transactions have the same conditional sum, so document order does not matter. |
| Ordering.Insert | src/screens/HomeScreen.tsx:44-46 | Inserting into a newest-first list gives a newest-first list holding the old elements plus the new one. |
| Ordering.SortNewestFirst | src/screens/HomeScreen.tsx:44-46 | The result is newest first and a permutation of the input, of the same length. |
| Ordering.SortSorted | src/screens/HomeScreen.tsx:44-46 | Sorting a list that is already newest first returns it unchanged. |
| Ordering.SortInPlace | src/services/transactionService.ts:164 | After the in-place sort the array is newest first and holds the same multiset of elements. |
| Ordering.SinkNewest | src/services/transactionService.ts:164 | One insertion step grows the sorted prefix by one element and keeps the array a permutation of what it was. |
| Cashier.Find | src/screens/TransactionScreen.tsx:55 | `None` exactly when no product has the id. Otherwise it is a product with that id, and it equals the product at the first index holding that id. |
| Cashier.Quantity | src/screens/TransactionScreen.tsx:56 | `cart[id] \|\| 0`: 0 for an absent key, the stored quantity (0 included) otherwise. |
| Cashier.Increment | src/screens/TransactionScreen.tsx:57 | The id's quantity goes up by one, and a new id goes last in key order. No other key changes. |
| Cashier.Without | src/screens/TransactionScreen.tsx:67 | Deleting a key removes exactly that key from the key order and leaves an order without it unchanged. |
| Cashier.WithoutAppend | src/screens/TransactionScreen.tsx:67 | Deleting a key keeps the order of the other keys, since it distributes over concatenation. |
| Cashier.Decrement | src/screens/TransactionScreen.tsx:64-69 | A quantity above 1 goes down by one, with the keys unchanged. Otherwise the key is deleted from the map and from the key order, the other keys keeping their order. An absent id leaves the cart unchanged. No other quantity changes. |
| Cashier.WithoutDistinct | src/screens/TransactionScreen.tsx:67 | Deleting a key keeps the remaining keys distinct. |
| Cashier.IncrementWellFormed | src/screens/TransactionScreen.tsx:57 | An add keeps the cart well formed: distinct keys, the same keys as the quantity map, every quantity at least 1. |
| Cashier.DecrementWellFormed | src/screens/TransactionScreen.tsx:64-69 | A remove keeps the cart well formed. |
| Cashier.IncrementWithinStock | src/screens/TransactionScreen.tsx:54-61 | A guarded add keeps every quantity within its product's stock. |
| Cashier.DecrementWithinStock | src/screens/TransactionScreen.tsx:63-70 | A remove keeps every quantity within its product's stock. |
| Cashier.AddThenRemove | src/screens/TransactionScreen.tsx:54-70 | A successful add followed by a remove of the same id restores the cart exactly, key order included. |
| Cashier.Total | src/screens/TransactionScreen.tsx:72-76 | With non-negative prices and quantities, `total` is never negative. |
| Cashier.TotalQty | src/screens/TransactionScreen.tsx:78 | With every quantity at least 1, `totalQty` is at least the number of cart lines. |
| Cashier.AddRaisesTotals | src/screens/TransactionScreen.tsx:72-78 | A successful add raises `total` by the product's price and `totalQty` by one. |
| Cashier.Item | src/screens/TransactionScreen.tsx:90-96 | A receipt line copies the product's id, name and price, and its subtotal is price times quantity. |
| Cashier.BuildItems | src/screens/TransactionScreen.tsx:88-97 | Fails exactly when some cart key has no product. Otherwise it gives one line per key, in key order, built from that key's product and quantity. |
| Cashier.ItemsAddUpToTotals | src/screens/TransactionScreen.tsx:72-97 | The receipt's subtotals add up to the screen's `total`, which is its `totalAmount`, and its quantities add up to `totalQty`. |
| Cashier.SetStock | src/screens/TransactionScreen.tsx:102 | A stock write changes the stock of every product with that id and nothing else. |
| Cashier.AfterCheckout | src/screens/TransactionScreen.tsx:100-103 | Checkout changes only a product's stock: id, name, price and image stay. A product not in the cart is unchanged. |
| Cashier.WriteStock | src/screens/TransactionScreen.tsx:100-103 | After the loop, each product in the cart has its loaded stock minus its cart quantity, and every other product is unchanged. |
| Cashier.CheckoutStockNonNegative | src/screens/TransactionScreen.tsx:56-103 | While quantities stay within stock, checkout never leaves a cart product with negative stock, and it leaves other products untouched. |
| Cashier.Settle | src/screens/TransactionScreen.tsx:80-116 | An empty cart stops at once, and a missing user stops with nothing written. A key without a product fails before any write. Otherwise the stock is written, then the store accepts and a completed receipt results, or it refuses and no receipt results. |
| Cashier.Lower | src/screens/TransactionScreen.tsx:224 | Lower-cases every character of the string and keeps its length. |
| Cashier.LowerChar | src/screens/TransactionScreen.tsx:224 | ASCII capitals map to their lower-case letter; every other character is unchanged. |
| Cashier.Search | src/screens/TransactionScreen.tsx:224 | The list shown holds exactly the products whose lower-cased name contains the lower-cased query. |
| Cashier.SearchAppend | src/screens/TransactionScreen.tsx:224 | The search keeps catalogue order and multiplicity, since it distributes over concatenation. |
| Cashier.SearchEmptyQuery | src/screens/TransactionScreen.tsx:224 | An empty query shows every product, in catalogue order. |
| Cashier.Cart.constructor | src/screens/TransactionScreen.tsx:39 | A new cart is empty and well formed. |
| Cashier.Cart.AddToCart | src/screens/TransactionScreen.tsx:54-61 | Adds exactly when the product exists and its quantity is below its stock; otherwise the cart is unchanged. The cart stays well formed and within stock. |
| Cashier.Cart.RemoveFromCart | src/screens/TransactionScreen.tsx:63-70 | The cart becomes its decrement; it stays well formed, and within stock for any catalogue it was within. |
| Cashier.Cart.Checkout | src/screens/TransactionScreen.tsx:80-123 | Does what `Settle` states, and empties the cart exactly when a receipt was produced. |
| LocalDb.LastWithKey | src/services/dbService.ts:48-55 | `None` exactly when no batch element has the key. Otherwise an element with the key that sits at an index with no later element of the same key. |
| LocalDb.Kept | src/services/dbService.ts:48-55 | The statements that succeed: every element kept comes from a non-failing index, every non-failing element stays, the result is no longer than the batch, and an empty failing set keeps the whole batch. |
| LocalDb.KeptStep | src/services/dbService.ts:48-55 | A failing statement leaves the table as the earlier statements left it; a succeeding one upserts its row on top. |
| LocalDb.StageUpserts | src/services/dbService.ts:47-56 | The statement loop leaves the table as the successful statements upserted in batch order. |
| LocalDb.UpsertKeepsKeys | src/services/dbService.ts:50 | Upserting rows keyed by their own id keeps every row under its own id. |
| LocalDb.UpsertAllAt | src/services/dbService.ts:44-61 | After an INSERT OR REPLACE batch, a key in the batch holds the row of its last element with that key. Every other key keeps its presence and its row. |
| LocalDb.UpsertAllIdempotent | src/services/dbService.ts:44-61 | Saving the same batch twice leaves the table as saving it once. |
| LocalDb.EncodeItem | src/services/dbService.ts:68 | One item is encoded as twelve tokens that open and close an object. |
| LocalDb.Encode | src/services/dbService.ts:68 | `JSON.stringify(items)` is a bracketed array. |
| LocalDb.DecodeEncode | src/services/dbService.ts:68-93 | The `items` column parses back to exactly the items that were written. |
| LocalDb.ProductRow | src/services/dbService.ts:51 | The stored row keeps id, name, price and stock, and stores a missing image as `''`. |
| LocalDb.TransactionRowOf | src/services/dbService.ts:68-71 | The stored row keeps the transaction's id and `createdAt`. |
| LocalDb.ReadTransaction | src/services/dbService.ts:90-94 | A row read back keeps its id and `createdAt`. |
| LocalDb.ReadWritten | src/services/dbService.ts:63-94 | A transaction written to the table reads back unchanged. |
| LocalDb.SelectAll | src/services/dbService.ts:86-111 | The scan returns every row of the table exactly once, under distinct keys. |
| LocalDb.ReadAll | src/services/dbService.ts:89-99 | Parses every row in order. If any row fails to parse, the result is `[]`, and the newest-first order carries over. |
| LocalDb.ReadBackCovers | src/services/dbService.ts:86-96 | A complete scan read back in any order yields exactly the stored transactions. |
| LocalDb.Database.constructor | src/services/dbService.ts:13-42 | `createTables` on a new database file leaves two empty tables. |
| LocalDb.Database.SaveProducts | src/services/dbService.ts:44-61 | An empty batch or a failed transaction leaves the table as it was. Otherwise the table becomes the successful statements upserted in order, each failing statement skipped. The transactions table is untouched. |
| LocalDb.Database.SaveTransactions | src/services/dbService.ts:63-81 | The same, for transactions with their items stored as JSON; the products table is untouched. |
| LocalDb.Database.DeleteProduct | src/services/dbService.ts:121-127 | Removes the product with that id, if any, unless the statement fails. |
| LocalDb.Database.GetProducts | src/services/dbService.ts:103-119 | Returns `[]` on failure. Otherwise every stored product appears exactly once, with distinct ids. |
| LocalDb.Database.GetTransactions | src/services/dbService.ts:83-101 | Newest first. Returns `[]` on failure or when any row's items do not parse; otherwise exactly the stored transactions. |
| Events.Remove | src/utils/eventBus.ts:18 | The filter keeps exactly the handlers that are not `fn`. |
| Events.RemoveAppend | src/utils/eventBus.ts:18 | The filter keeps relative order, since it distributes over concatenation. |
| Events.RemoveAbsent | src/utils/eventBus.ts:18 | The filter leaves a list without `fn` unchanged. |
| Events.Register | src/utils/eventBus.ts:6-10 | `on` appends `fn` to the event's list, creating the list if needed; no other event changes. |
| Events.Unregister | src/utils/eventBus.ts:12-19 | An unknown event is a no-op. Without `fn` the event is dropped; with `fn` every occurrence of it is filtered out. No other event changes. |
| Events.RegisterThenUnregister | src/utils/eventBus.ts:6-19 | Calling the unsubscribe closure right after registering a new handler restores every event's handler list. |
| Events.UnsubscribeRemovesAll | src/utils/eventBus.ts:9-18 | Unsubscribing removes all registrations of that handler on the event, earlier ones included. |
| Events.EffectsFromCalled | src/utils/eventBus.ts:22 | Every action in the effects was performed by one of the called handlers. |
| Events.ApplyLeavesOthers | src/utils/eventBus.ts:6-19 | An event that no action names keeps its handler list, or its absence. |
| Events.ApplyAppend | src/utils/eventBus.ts:21-23 | Applying two runs of bus actions one after the other is applying their concatenation. |
| Events.EventBus.constructor | src/utils/eventBus.ts:4 | A new bus has no handlers. |
| Events.EventBus.On | src/utils/eventBus.ts:6-10 | The handlers become `Register` of the old ones, and the returned closure captures the event and the handler. |
| Events.EventBus.Off | src/utils/eventBus.ts:12-19 | The handlers become `Unregister` of the old ones. |
| Events.EventBus.Call | src/utils/eventBus.ts:9 | Calling the closure is `off(event, fn)`. |
| Events.EventBus.Emit | src/utils/eventBus.ts:21-23 | Calls the handlers registered when `emit` began, in order, whatever they change, up to and including the first that throws. The exception is reported. If none throws, all of them are called. The final state is the effect of the called handlers' actions in call order. |
| Events.CallHandlers | src/utils/eventBus.ts:22 | The `forEach` over the copied list calls a prefix of it, ending at the first handler that throws, or all of it if none throws. It applies each called handler's actions to the bus in call order. |
| TransactionService.TotalAmount | src/services/transactionService.ts:127-140 | The loop's total is the sum of the amounts of the completed documents inside the window. |
| TransactionService.WindowIsInclusive | src/services/transactionService.ts:135-136 | Both ends of the window are inclusive. |
| TransactionService.UnboundedTotal | src/services/transactionService.ts:127-140 | Without bounds, the total is the sum over the completed documents, whatever order the query returns. |
| TransactionService.WiderWindowNotSmaller | src/services/transactionService.ts:132-138 | With non-negative amounts, widening the window never lowers the total. |
| TransactionService.FromDoc | src/services/transactionService.ts:159-162 | The delivered transaction carries the document's id, `createdAt`, amount and status. |
| TransactionService.FromDocs | src/services/transactionService.ts:159-162 | Maps each document in turn. |
| TransactionService.Deliver | src/services/transactionService.ts:158-165 | The callback receives the mapped documents newest first, as a permutation of them. |
| TransactionService.InsertErrorMessage | src/services/transactionService.ts:77-80 | `permission-denied` gives the fixed permission message. Otherwise the store's message is used if non-empty, else "Gagal membuat transaksi". The message is never empty. |
| TransactionService.AddTransaction | src/services/transactionService.ts:64-82 | On success the stored document has `createdAt` and `updatedAt` from the two clock readings and the caller's other fields. On failure the error is `InsertErrorMessage`. |
| Home.DailyRevenue | src/screens/HomeScreen.tsx:11-23 | No transactions give 0. |
| Home.WeeklyRevenue | src/screens/HomeScreen.tsx:25-32 | No transactions give 0. |
| Home.DailyRevenueAppend | src/screens/HomeScreen.tsx:11-23 | One more transaction adds its amount exactly when its local date is today's. |
| Home.WeeklyRevenueAppend | src/screens/HomeScreen.tsx:25-32 | One more transaction adds its amount exactly when it is at most seven days old. |
| Home.Arrange | src/screens/HomeScreen.tsx:44-47 | The stored copy is newest first and a permutation of the data. |
| Home.ArrangeDelivered | src/screens/HomeScreen.tsx:44-47 | Data already newest first, as the service delivers it, is stored unchanged. |
| Home.RevenueOfArranged | src/screens/HomeScreen.tsx:11-47 | Sorting does not change the daily or the weekly revenue. |

## Left out

- React state updates are modelled as immediate. Batching, stale closures over `cart`, and re-renders are not modelled.
- The `products` list of the cashier screen is a parameter. Its live subscription to the remote catalogue is not part of this model.
- JavaScript orders integer-like object keys (such as `"10"`) before other keys. The cart model uses plain insertion order for all keys.
- Keys that collide with `Object.prototype` properties are not modelled. For example, an event or cart id named `constructor` would find an inherited value.
- Cashier.Search: lower-cases ASCII letters only. Unicode case mapping of `toLowerCase` is not modelled.
- Cashier.Settle: a failing `updateProduct` partway through the stock loop is not modelled. The model either writes all stock or none.
- Cashier.Settle: the receipt's `paymentMethod: 'cash'` field is not modelled. Its `createdAt` is the checkout clock reading, held as an integer rather than an ISO string. It also gets an `updatedAt` equal to `createdAt`, which the screen's receipt object lacks.
- Cashier.Cart.Checkout: the loading flag, alerts and receipt modal are UI and are left out. So is the asynchronous ordering of the awaits.
- Home.DailyRevenue: time zones and daylight-saving time are not modelled. The local calendar date of a timestamp is a parameter.
- Home.WeekAgo: `setDate(getDate() - 7)` is modelled as exactly seven 24-hour days, ignoring daylight-saving shifts.
- Unparsable date strings (`Invalid Date`, NaN comparisons) are not modelled; every `createdAt` is an integer.
- TransactionService.FromDoc: a document whose data holds its own `id` field, which the spread would let override `doc.id`, is not modelled.
- Transaction fields the core never reads (`paymentMethod`, `notes`, `receiptUrl`) are not modelled.
- Product fields the core never reads (`userId`, `description`, `createdAt`, `updatedAt`) are not modelled. So `updateProduct` writing `updatedAt` at checkout is not modelled, and Cashier.AfterCheckout's "only stock changes" covers the modelled fields only.
- The `where('userId', '==', userId)` query, listener lifetimes, the error callback of `onSnapshot`, and the error wrapping of the `getTotalTransactionAmount` catch are not modelled. The documents a query returns are a parameter.
- LocalDb.Database.SaveProducts: which statements fail is a parameter, because the model does not derive it from the row values (such as a missing `name` against `NOT NULL`). Console logging is not modelled.
- LocalDb.Database.SaveTransactions: the same; which statements fail is a parameter.
- JSON text is modelled at token level. Character escaping and number formatting are not modelled.
- SQLite's tie order for equal `createdAt` values is not specified. The model orders ties by the scan order it chose, and the contract of `GetTransactions` states only newest-first order.
- Ordering.SortNewestFirst: stability (equal keys keep their order) is not a proved contract; only order and permutation are.
- Ordering.SortInPlace: stability is not a proved contract either; only order and permutation are.
- Events.EventBus.Emit: a handler that itself calls `emit` is not modelled. Handlers act on the bus only by subscribing and unsubscribing, and a throwing handler throws after its actions.
- Event handler payloads are not modelled; handlers are identities compared with `!==`.
- LocalDb.Database.constructor: a failing `createTables` (which rethrows) and the column types are not modelled; the constructor is a successful run on a new file.
- `getDBConnection`, `updateTransactionStatus`, `deleteTransaction`, the other screens, and Firebase configuration are outside this model.
