# PrimeSelect storefront core in Dafny

PrimeSelect is a PHP/MySQL shop. It sells stocked products and made-to-order
("preorder") products; stock is tracked per product or per variation. This
project models the table operations behind that shop: the stock ledger, the
cart, order creation with its stock pre-flight check, cancellation with stock
restore, payments, preorders and their lead-time estimate, the wishlist and
reviews. It also models the request handlers that chain those operations: the
checkout, the cancel page and the cart page. Finally it covers the listing
page's helpers: the pagination and the query-string editor.

The whole database is one value, `Schema.Tables`. It holds every table, the
auto-increment counters and the `orders.status` column default. The PDO
connection is the class `Store.Database`. Its `data` field is the current
database. Its `savepoint` field is the state a rollback returns to, and it is
set while a transaction is open.

Each PHP method becomes a pure function from the old database to the new one
(`StockMoved`, `ItemAdded`, `Creating`, `Restored`, ...). It also becomes a
Dafny method on `Database` that does the PHP steps in order, loops included,
and is proved to reach exactly that function's result. Lemmas about the
functions state what the source promises: guards, frames, round trips and
invariants. Some lemmas pin down behaviour the code has but that a reader
might not expect; their doc comments say so.

Files, one module each:

- `schema.dfy` holds `Schema` (rows, tables) and `Store` (the connection).
- `stock_ledger.dfy` is `StockLedger`, modelling `classes/Product.php`.
- `lead_time.dfy` is `LeadTime`, modelling the lead-time parsers in `classes/Order.php` and `classes/Preorder.php`.
- `preorder_book.dfy` is `PreorderBook`, modelling `classes/Preorder.php`.
- `cart_table.dfy` is `CartTable`, modelling `classes/Cart.php`.
- `order_workflow.dfy` is `OrderWorkflow`, modelling `classes/Order.php`.
- `payment.dfy` is `Payment`, modelling `classes/Payment.php`.
- `checkout.dfy` is `Checkout`, modelling `checkout.php`.
- `cancel_order.dfy` is `CancelOrder`, modelling `cancel_order.php`.
- `cart_page.dfy` is `CartPage`, modelling `cart.php`.
- `paging.dfy` is `Paging`, modelling `includes/paging.php`.
- `shop.dfy` is `Shop`, modelling `shop.php`.
- `wishlist.dfy` is `WishlistTable`, modelling `classes/Wishlist.php`.
- `review.dfy` is `ReviewTable`, modelling `classes/Review.php`.

Modelling choices:

- Money is a whole number. Days are day numbers.
- User and product ids are integers. A guest's temporary cart id is an integer too.
- Text that PHP treats as falsy is `Schema.EmptyText`. A falsy nullable id is `Schema.Truthy`.
- Rows fetched without `ORDER BY` come back in insertion order.
- The code promises things that only hold if a storage call succeeds. The one storage failure modelled is the payment INSERT (`insertOk`). Every other statement succeeds.

## Model

| member | source | states |
|---|---|---|
| Store.Database.BeginTransaction | classes/Order.php:97-99 | opening a transaction records the current state as the savepoint and needs no transaction open |
| Store.Database.Rollback | classes/Order.php:150-156 | a rollback restores the savepoint and closes the transaction |
| StockLedger.GetStockStatus | classes/Product.php:621-629 | out of stock exactly at 0 or below, low stock exactly for 1..5, in stock exactly from 6 |
| StockLedger.StatusMonotone | classes/Product.php:621-629 | more stock never gives a worse status |
| StockLedger.CheckStock | classes/Product.php:585-608 | a truthy variation id reads the variation's stock, anything else the product's; a missing row reads 0; available iff stock > 0 |
| StockLedger.LogEntryRecordsDelta | classes/Product.php:707-721 | the log type is in/out/adjust by the sign of the delta and the quantity is its magnitude, so the entry gives back the delta |
| StockLedger.StockMovedRefusesNegative | classes/Product.php:653-660 | an update is refused exactly when the new level would be negative |
| StockLedger.StockMovedEffect | classes/Product.php:662-684 | on success only the addressed stock row changes, by exactly the delta, and exactly one log entry is appended |
| StockLedger.StockMovedKeepsNonNegative | classes/Product.php:643-694 | non-negative stock stays non-negative through the ledger |
| StockLedger.LogStockChange | classes/Product.php:707-721 | appends exactly the entry for the delta and touches nothing else |
| StockLedger.UpdateStock | classes/Product.php:643-694 | succeeds iff the new level is non-negative; the result is the ledger update or the old state; a caller's transaction is left open |
| StockLedger.MissingProductIsNotPreorder | classes/Product.php:732-744 | a product without a row has flag 0 and no lead time |
| StockLedger.CreatedProductReads | classes/Product.php:53-118 | after create, every reader sees the new product as made to order iff its flag is non-zero, but its stock is zeroed only for flag 1 (flag 2 is made to order and keeps its stock); an empty image, category or period reads as NULL; every other product and SKU reads as before |
| StockLedger.CreateProduct | classes/Product.php:53-118 | returns the next product id and leaves exactly the tables `ProductCreated` describes, whose readings `CreatedProductReads` states |
| StockLedger.SortWhitelist | classes/Product.php:313-324 | only name/price/created and ASC/DESC reach ORDER BY; whitelisted input passes unchanged, anything else falls back to created DESC |
| LeadTime.CapturesIgnoreUnit | classes/Order.php:204 | the trailing unit class never changes whether the pattern matches, where it starts, or its two captures |
| LeadTime.SpanDependsOnUnit | classes/Preorder.php:376 | the two unit classes `[週]*` and `[週間]*` do give different matches: on "4週間" the order's match ends at byte 5, the preorder's at byte 7 |
| LeadTime.SameEstimate | classes/Order.php:202-218 | the order's `[週]*` estimate and the preorder's `[週間]*` delivery date agree on every text and are never before today |
| LeadTime.NoDigitDefaults | classes/Order.php:202-218 | text without a digit, or a NULL lead time, gives no match and four weeks under both patterns |
| LeadTime.RangeWeeks | classes/Order.php:202-218 | "n-m" with a separator byte gives max(n, m) weeks |
| LeadTime.SingleWeeks | classes/Preorder.php:374-389 | a single number gives that many weeks |
| LeadTime.AboutFourToSixWeeks | classes/Order.php:202-218 | "約4-6週間" gives six weeks to the order and the preorder |
| LeadTime.WaveDashRangeReadsFirstNumber | classes/Order.php:202-218 | "4〜6週間" gives four weeks, because the byte-wise class takes only the first byte of 〜 |
| LeadTime.MonthsReadAsWeeks | classes/Order.php:202-218 | "2-3ヶ月" gives three weeks: the unit is ignored |
| PreorderBook.StatusUpdatedEffect | classes/Preorder.php:109-141 | the update succeeds iff the id is numeric and the status is one of the six lifecycle values; then only that row's status changes, otherwise nothing |
| PreorderBook.NoTransitionTable | classes/Preorder.php:117-131 | any lifecycle status replaces any current one |
| PreorderBook.UpdateStatus | classes/Preorder.php:109-141 | the method reaches exactly the guarded update |
| PreorderBook.CancelEffect | classes/Preorder.php:253-271 | cancel succeeds iff the row is the user's and pending or confirmed, then sets it to cancelled and nothing else |
| PreorderBook.CancelOnce | classes/Preorder.php:253-271 | a cancelled preorder cannot be cancelled again, and no other user can cancel it |
| PreorderBook.Cancel | classes/Preorder.php:253-271 | the method reaches exactly the guarded cancel |
| PreorderBook.DeliveryUpdatedEffect | classes/Preorder.php:300-313 | only that row's delivery date changes |
| PreorderBook.UpdateEstimatedDelivery | classes/Preorder.php:300-313 | the method reaches exactly that update |
| CartTable.FirstMatch | classes/Cart.php:41-52 | the first row of the user, product and variation; a falsy variation id matches only NULL |
| CartTable.ItemAddedEffect | classes/Cart.php:39-89 | an existing key gets the quantity added to its row with no insert; a new key gets exactly one row with the next id |
| CartTable.ItemAddedIntegrity | classes/Cart.php:39-89 | add keeps cart ids distinct and below the counter |
| CartTable.ItemAddedKeepsOneRowPerKey | classes/Cart.php:39-89 | with a NULL or truthy variation id, add keeps one row per (user, product, variation) |
| CartTable.ZeroVariationDuplicates | classes/Cart.php:44-52 | variation id 0 is looked up as NULL but stored as 0, so two adds make two rows for one key and isInCart misses it |
| CartTable.ItemAddedIsInCart | classes/Cart.php:245-266 | after an add with a NULL or truthy variation, isInCart finds the item |
| CartTable.ItemAddedQty | classes/Cart.php:39-89 | add raises the user's units of that key by exactly the quantity and no other key or user changes |
| CartTable.ItemAddedKeepsOthers | classes/Cart.php:39-89 | other users' rows are unchanged by an add |
| CartTable.ItemCountAfterAdd | classes/Cart.php:172-179 | the item count counts rows: unchanged by a merge into a row, one more for a new key |
| CartTable.QuantitySetEffect | classes/Cart.php:140-146 | the given quantity, zero or negative too, is written to the row with that id and nowhere else |
| CartTable.RemoveAndClearEffect | classes/Cart.php:124-162 | after removeItem no row has the id; clear leaves the user no rows, a zero count, and everyone else's rows |
| CartTable.MergedEffect | classes/Cart.php:278-325 | after the merge the guest cart is empty, each key of the user holds its units plus the guest's, and third users are untouched |
| CartTable.MergeIntoSelfEmpties | classes/Cart.php:278-325 | merging a cart into itself empties it |
| CartTable.GetTotalAmount | classes/Cart.php:190-206 | the loop computes the sum of (price + adjustment) × quantity over the items |
| CartTable.TotalIgnoresStock | classes/Cart.php:190-206 | the total does not depend on stock |
| CartTable.TotalAfterInsert | classes/Cart.php:190-206 | a new row adds exactly its subtotal to the total |
| CartTable.AddItem | classes/Cart.php:39-89 | the method reaches exactly ItemAdded and returns true |
| CartTable.UpdateQuantity | classes/Cart.php:140-146 | the method reaches exactly the quantity overwrite |
| CartTable.RemoveItem | classes/Cart.php:124-129 | the method deletes exactly the rows with that id |
| CartTable.Clear | classes/Cart.php:157-162 | the method deletes exactly the user's rows |
| CartTable.MergeCart | classes/Cart.php:278-325 | inside an open transaction it throws and changes nothing; otherwise the loop reaches exactly Merged and commits |
| OrderWorkflow.ItemsFor | classes/Order.php:129-135 | one order item per cart line, in order, at the line's unit price |
| OrderWorkflow.UpdateStockWithoutTransaction | classes/Order.php:232-271 | succeeds iff the ledger update succeeds, with exactly its result |
| OrderWorkflow.AddOrderItem | classes/Order.php:285-303 | appends exactly one order item |
| OrderWorkflow.CreatePreorder | classes/Order.php:171-192 | appends one pending preorder with the lead-time estimate |
| OrderWorkflow.Preflight | classes/Order.php:62-85 | the check passes iff every stocked line has stock > 0 and at least its quantity, and the total is the cart sum |
| OrderWorkflow.InsertLines | classes/Order.php:137-144 | the loop succeeds iff every line can be placed, reaching exactly LinesPlaced |
| OrderWorkflow.Create | classes/Order.php:44-159 | a short line throws before writing; an empty cart returns false; a placed order commits; a failing line rolls back the open transaction, a caller's included |
| OrderWorkflow.ShortStockIff | classes/Order.php:62-72 | create throws before writing exactly when some stocked line is short; it returns false exactly on an empty cart |
| OrderWorkflow.LinePlacedEffect | classes/Order.php:137-144 | one line appends its item; a made-to-order line adds a preorder and keeps stock and log; a stocked line lowers its SKU by its quantity and logs one `out` entry of that quantity for the order |
| OrderWorkflow.LinesPlacedEffect | classes/Order.php:137-144 | the loop appends the line items in order, lowers every SKU by its demand and appends one `out` entry per stocked line in line order; no other table changes; stock stays non-negative |
| OrderWorkflow.PlacedOrderRow | classes/Order.php:94-135 | the order row has the next id, the cart total, the form fields and the default status; other orders and the cart are untouched |
| OrderWorkflow.PlacedStock | classes/Order.php:137-144 | a placed order lowers each SKU by its demand, logs one `out` entry per stocked line, and keeps stock non-negative |
| OrderWorkflow.ItemsTotalIsSum | classes/Order.php:78-133 | the order items made from the lines are worth the sum of the lines' subtotals |
| OrderWorkflow.PlacedTotalMatchesItems | classes/Order.php:78-133 | the total_amount of a freshly placed order equals the sum of price × quantity over the order items stored for it |
| OrderWorkflow.PreorderLinesDemandNothing | classes/Order.php:137-140 | an all-preorder cart demands no stock |
| OrderWorkflow.SameSkuTwiceFails | classes/Order.php:62-72 | two lines on one SKU each pass the per-line check, then the second decrement fails and the order rolls back |
| OrderWorkflow.UpdateStatus | classes/Order.php:370-378 | overwrites one order's status, whatever it was |
| OrderWorkflow.OrderStatusSetEffect | classes/Order.php:370-378 | only that order's status changes |
| OrderWorkflow.ItemsOf | classes/Order.php:498-503 | the items of one order: exactly the rows with that order id |
| OrderWorkflow.RestoreItems | classes/Order.php:506-525 | the restore loop reaches exactly ItemsRestored |
| OrderWorkflow.RestoreStockOnCancel | classes/Order.php:476-539 | succeeds iff the restore does; when it opened the transaction a failure rolls back; inside a caller's transaction the partial work stays |
| OrderWorkflow.ItemsRestoredFrame | classes/Order.php:506-525 | the restore writes only stock, logs, preorders and the order's status |
| OrderWorkflow.RestoreKeepsCart | classes/Order.php:476-539 | the cart, catalogue, order items and payments are untouched by a restore |
| OrderWorkflow.ItemsRestoredEffect | classes/Order.php:506-525 | with non-negative quantities the restore cannot fail, every SKU rises by what its items return, and one `in` entry per stocked item is logged in item order |
| OrderWorkflow.UndoneReverses | classes/Order.php:506-525 | each entry of a log's reversal names the same SKU, gives back exactly the opposite delta and has the cancel reason |
| OrderWorkflow.InLogsUndoOutLogs | classes/Order.php:129-144 | the `in` entries the cancel writes for an order's items are, one for one, the reversal of the `out` entries its lines wrote |
| OrderWorkflow.DemandIsReturned | classes/Order.php:129-144 | the items made from the lines give back exactly what the lines took |
| OrderWorkflow.PlacedItemsOf | classes/Order.php:129-135 | the stored items of a fresh order are exactly the items of its lines |
| OrderWorkflow.RestoreUndoesLines | classes/Order.php:476-539 | with stock non-negative and every cart quantity non-negative (the cart does not guarantee it: see Checkout.NegativeQuantityDefeatsRestore), restoring after a successful insert loop succeeds and gives every stock column its earlier value |
| OrderWorkflow.CancelLogs | classes/Order.php:476-539 | a placed order logs its `out` entries; with stock non-negative and every cart quantity non-negative (the cart does not guarantee it: see Checkout.NegativeQuantityDefeatsRestore) and an order id no earlier item uses, cancelling it then appends their reversal |
| OrderWorkflow.CancelUndoesPlacement | classes/Order.php:476-539 | with stock non-negative and every cart quantity non-negative (the cart does not guarantee it: see Checkout.NegativeQuantityDefeatsRestore) and an order id no earlier item uses, cancelling the placed order succeeds, restores all stock, leaves the log as the order's `out` entries followed by their reversal (an out/in pair of equal magnitude per stocked line), cancels every preorder the placement created, and marks the order cancelled |
| OrderWorkflow.RestoreTwiceReturnsTwice | classes/Order.php:476-539 | no status guard: a second restore succeeds and returns the stock again |
| OrderWorkflow.PreorderCancelScope | classes/Order.php:508-521 | a made-to-order item cancels every live preorder of that user and product, from other orders too, and keeps stock |
| OrderWorkflow.CancelsPreorderIff | classes/Order.php:506-521 | a restore's items cancel a preorder row exactly when one of them is a made-to-order item of the row's product, restored for the row's user |
| OrderWorkflow.ItemsRestoredPreorders | classes/Order.php:506-525 | over the whole loop, every preorder row some made-to-order item of the order cancels becomes cancelled, and every other row is left as it was; no row is added or removed |
| OrderWorkflow.RestoredPreorders | classes/Order.php:476-539 | with non-negative stock and quantities, restoreStockOnCancel succeeds and its preorder table is exactly that loop-level cancellation |
| OrderWorkflow.LinesPlacedPreorders | classes/Order.php:137-144 | the insert loop allocates a block of preorder ids, keeps the rows below it, and each row it allocates belongs to the user and a made-to-order item of the order |
| OrderWorkflow.CancelCancelsPreorders | classes/Order.php:476-539 | under the hypotheses of CancelUndoesPlacement, every preorder the placement created is cancelled by the cancel |
| Payment.PaidEffect | classes/Payment.php:41-148 | a payment succeeds iff the insert does; it adds one payment row with the method's fields and sets that order's status; nothing else changes |
| Payment.MethodTable | classes/Payment.php:41-148 | card is completed/DEMO_/processing, bank transfer pending/BT_/pending, COD pending/COD_/processing |
| Payment.ProcessCreditCard | classes/Payment.php:41-74 | reaches exactly the card payment; the card fields are not inspected |
| Payment.ProcessBankTransfer | classes/Payment.php:85-111 | reaches exactly the bank-transfer payment |
| Payment.ProcessCod | classes/Payment.php:122-148 | reaches exactly the COD payment |
| Checkout.PlaceOrder | checkout.php:50-112 | an open transaction is rolled back first, then create, payment, and clear or restore; the effect is exactly CheckedOut |
| Checkout.CheckoutOutcomes | checkout.php:50-112 | an exception or empty cart leaves the database as it was; only a completed payment clears the cart, keeping other users' rows; a failed payment keeps the cart |
| Checkout.UnknownMethodFails | checkout.php:69-87 | an unrecognised payment method is a payment failure for a placed order |
| Checkout.PaymentFailureRestoresStock | checkout.php:96-99 | with stock non-negative and every cart quantity non-negative and an order id no earlier item uses, a failed payment gives all stock back and cancels the order |
| Checkout.NegativeLineAdds | cart.php:51-80 | in a shop with product 1 at stock 3 and an empty cart, add requests of −5, 3 and 3 units with variation 0 are all accepted and leave three cart rows, one with a negative quantity |
| Checkout.NegativeQuantityDefeatsRestore | checkout.php:50-112 | with that cart the order is placed (stock 3 → 2), an unrecognised payment method fails, the restore throws on the −5 item, and the checkout ends with stock 2 and the order still pending |
| OrderWorkflow.RestoredCancelsBlock | classes/Order.php:476-539 | a restore cancels every preorder in a block of ids when each of them is cancelled by some item of the order |
| Checkout.SummaryTotal | checkout.php:206-220 | the summary loop computes the cart sum |
| CancelOrder.HandleCancel | cancel_order.php:19-63 | the handler reaches exactly CancelRequested |
| CancelOrder.CancelOnlyOverwritesStatus | cancel_order.php:41-63 | the page cancels exactly the user's own pending or processing order and only its status changes; stock is not restored |
| CancelOrder.OthersOrdersUntouched | cancel_order.php:41-48 | another user's or a missing order is refused and nothing changes |
| CartPage.AddAction | cart.php:51-84 | the add handler reaches exactly AddRequested |
| CartPage.AddGuard | cart.php:58-80 | without the request flag an add goes through iff stock > 0 and covers the quantity (default 1), and otherwise changes nothing |
| CartPage.PreorderFlagBypassesStock | cart.php:58-72 | a request carrying the preorder flag is added whatever the stock |
| CartPage.AddCheckIgnoresCartQuantity | cart.php:58-80 | the check ignores what is already in the cart, so the cart can exceed stock |
| CartPage.RemoveAction | cart.php:87-98 | the remove handler deletes the row by id |
| CartPage.RemoveIgnoresOwner | cart.php:87-98 | a row of another user is removed too, and every other row stays |
| CartPage.UpdateAction | cart.php:101-141 | the update handler reaches exactly UpdateRequested |
| CartPage.FindLine | cart.php:106-108 | the fetch loop stops at the first of the user's lines with the posted row id, or finds none |
| CartPage.UpdateItem | cart.php:109-135 | the guard of the found row: out of stock, short, refused for a non-positive quantity, or the quantity is set |
| CartPage.UpdateGuard | cart.php:101-141 | an update goes through iff the user owns the row, the quantity is positive and a stocked item's stock covers it; otherwise nothing changes |
| CartPage.DisplayTotals | cart.php:176-214 | the display loop's total counts available lines, and it flags a shortfall iff the order pre-flight check would fail |
| CartPage.DisplayedTotalWithoutShortfall | cart.php:176-214 | without a shortfall the displayed total equals the order total |
| CartPage.PartialCheckoutThrows | cart.php:305-317 | the partial-checkout link always leads to a create that throws; the plain link leads to one that passes; no link iff the cart is empty |
| Paging.TotalPagesIsCeiling | includes/paging.php:30-35 | the page count is the ceiling of rows / per page, and zero exactly for no rows |
| Paging.WindowBounds | includes/paging.php:62-69 | at most five consecutive pages, all in [1, total], holding the current page when it exists |
| Paging.NoPageArgUnchanged | includes/paging.php:38 | a URL without `&page=N` is left as it is |
| Paging.TrailingPageArgRemoved | includes/paging.php:38 | a trailing `&page=N` is removed |
| Paging.StripIsOnePass | includes/paging.php:38 | the removal is one pass and can leave a `&page=N` formed from the surrounding text |
| Paging.PagesBetween | includes/paging.php:66-69 | the loop lists exactly the pages from start to end |
| Paging.ItemsFor | includes/paging.php:83-90 | the loop emits one item per listed page |
| Paging.GetPaging | includes/paging.php:25-103 | the method builds exactly NavOf: nothing for zero pages, else previous, the window and next |
| Paging.NavLinks | includes/paging.php:48-97 | the current page is active with no link; other pages link to url + separator + `page=` + number; previous links to page − 1 when page > 1 and is disabled otherwise; next links to page + 1 when page < total and is disabled otherwise |
| Shop.NeverEndsWithAmp | shop.php:76 | add_query_arg never returns a URL ending in `&` |
| Shop.NoQueryAppends | shop.php:67-73 | on a URL without `?` or the key, the pair is appended after `?` |
| Shop.QueryJoinsWithOneAmp | shop.php:67-71 | on a URL with `?` the pair joins after exactly one `&` unless the URL already ended in `&&` |
| Shop.RemovesEarlierValue | shop.php:64 | an earlier `[?&]key=value` and its trailing `&` are removed, keeping the separator |
| Shop.ReplaceOnlyArg | shop.php:58-77 | replacing the only parameter gives `?&key=value` |
| Shop.OffsetSign | shop.php:36-38 | the offset is negative exactly for page ≤ 0; each page starts nine rows after the last |
| Shop.Dispatch | shop.php:191-203 | a category wins over prices; a price range needs both bounds and no category; otherwise the paged sort at the page's offset |
| Shop.PagingOnlyWithSorted | shop.php:304-308 | the navigation is shown only with the paged sort |
| Shop.SingleBoundHidesPaging | shop.php:191-203 | a single price bound shows the first nine sorted rows and no navigation |
| WishlistTable.AddEffect | classes/Wishlist.php:40-64 | add is idempotent: a listed pair is not inserted again; a new pair gets exactly one row; one row per pair is kept |
| WishlistTable.RemoveEffect | classes/Wishlist.php:73-85 | after remove the pair is not listed and every other pair is as before |
| WishlistTable.AddThenRemove | classes/Wishlist.php:40-85 | adding then removing a new pair gives back the original rows |
| WishlistTable.WithoutUser | classes/Wishlist.php:199-206 | removeAllByUser keeps exactly the rows of other users |
| WishlistTable.WithoutProduct | classes/Wishlist.php:217-224 | removeAllByProduct keeps exactly the rows of other products |
| WishlistTable.RemoveAllByUserCount | classes/Wishlist.php:199-206 | afterwards the user's wishlist count is zero |
| WishlistTable.MovedToCartEffect | classes/Wishlist.php:236-258 | addToCart fails with no change for an unknown id; otherwise it adds that product to the cart with no variation |
| WishlistTable.Add | classes/Wishlist.php:40-64 | the method reaches exactly WishAdded and returns true |
| WishlistTable.Remove | classes/Wishlist.php:73-85 | the method deletes exactly that pair |
| WishlistTable.AddToCart | classes/Wishlist.php:236-258 | the method reaches exactly MovedToCart |
| ReviewTable.ReviewedEffect | classes/Review.php:42-99 | create keeps one review per pair and distinct ids; the pair's review has exactly the given rating, any integer, and comment; other pairs are unchanged |
| ReviewTable.ReviewCountAfter | classes/Review.php:153-163 | the product's review count rises by one for a new pair and is otherwise unchanged |
| ReviewTable.Create | classes/Review.php:42-99 | the method updates the existing review or inserts one, exactly as Reviewed |

## Left out

- HTML, CSS and JavaScript output, flash-message texts and redirects. The handlers return a datatype naming the page or message.
- Authentication and sessions. The session user is an `Option<int>` parameter, and the guest's temporary id is an integer.
- SQL and PDO as such. Queries are functions on `Tables`. Only the PDO transaction state is modelled.
- Concurrency. Each request runs alone, so the wishlist's and reviews' check-then-insert cannot race.
- The auto-increment counters are part of `Tables`. They therefore roll back with a transaction, which MySQL's counters do not.
- Floating-point prices, `AVG` and rounding. Prices and totals are integers, and `Review.getAverageRating` is not modelled.
- Calendar dates. A date is a day number, and "+N weeks" adds 7·N days.
- The `uniqid` suffix of transaction ids. Only the fixed prefix is kept.
- Storage failures apart from the payment insert. Every other statement succeeds.
- Exceptions other than those the code raises itself, and PDO errors.
- `error_log` diagnostics (classes/Preorder.php:112-137 and 309, classes/Order.php:536, classes/Cart.php:322). They write to the server log and change no table.
- `parse_url` is reduced to "the URL contains `?`". `parse_str`/`http_build_query` in shop.php's current URL rebuild are not modelled.
- The `(int)` casts of request text are not modelled. Page numbers and ids arrive as integers, and a non-numeric id is `None`.
- Regex metacharacters in the `add_query_arg` key are not modelled. The key is matched literally, which is how it is used.
- The add_query_arg copy in category.php is the same code and is not modelled twice.
- Sanitisation (`htmlspecialchars`, `strip_tags`), images, categories, users and the admin request handlers are not part of this model.
- The listing queries themselves (`getByCategory`, `getByPriceRange`, `readWithSorting`) are not modelled. `Shop.ListingFor` names which one runs, with its arguments.
- The Order and Wishlist objects' user or product fields are modelled as parameters.
- OrderWorkflow.RestoreUndoesLines: proved only for carts with non-negative quantities and non-negative stock, because cart.php accepts a negative posted quantity (its only test is `stock < quantity`) and classes/Cart.php stores it; Checkout.NegativeQuantityDefeatsRestore shows such a cart defeats the restore.
- OrderWorkflow.CancelLogs: proved only for carts with non-negative quantities and non-negative stock, because cart.php accepts a negative posted quantity (its only test is `stock < quantity`) and classes/Cart.php stores it; Checkout.NegativeQuantityDefeatsRestore shows such a cart defeats the restore.
- OrderWorkflow.CancelUndoesPlacement: proved only for carts with non-negative quantities and non-negative stock, because cart.php accepts a negative posted quantity (its only test is `stock < quantity`) and classes/Cart.php stores it; Checkout.NegativeQuantityDefeatsRestore shows such a cart defeats the restore.
- OrderWorkflow.CancelCancelsPreorders: proved only for carts with non-negative quantities and non-negative stock, because cart.php accepts a negative posted quantity (its only test is `stock < quantity`) and classes/Cart.php stores it; Checkout.NegativeQuantityDefeatsRestore shows such a cart defeats the restore.
- Checkout.PaymentFailureRestoresStock: proved only under the same hypotheses; the rollback promise of checkout.php:96-99 fails for a cart with a negative quantity, as Checkout.NegativeQuantityDefeatsRestore shows.
