# BuyHub shop core in Dafny

A model of the BuyHub shop backend's service layer and of its cart page.
The backend keeps users, carts with their lines, products and orders in
database tables. Its services do the following:

- **Cart service.** Create a user's single cart. Add a product to a cart, merging into the product's existing line or appending a new line. Remove every line of a product. Read a cart's lines.
- **Order service.** Place an order from the whole cart or from the selected lines, and take the ordered lines out of the cart. Change an order's status, checked against the six order statuses. List orders by status or by user. Compute the order statistics: counts per status and revenue.
- **Payment service.** Record the payment gateway's order id on an order. Confirm a payment by comparing the gateway's HMAC-SHA256 signature over `gateway order id|payment id` with a recomputed one. A match marks the order PAID.
- **Product service.** Save, list, delete and update products.

The cart page keeps a selection of line keys: all lines are selected after loading, and each checkbox toggles its line's key. Select-all / deselect-all works by comparing lengths. The page shows the total of the selected lines. Checkout sends the selection to the order service.

Layout:

- `shop.dfy` (module `Shop`): records as datatypes, status names, ASCII upper-casing, line selection and totals.
- `repository.dfy` (module `Repository`): the class `Db`. Its map fields stand for the tables. A `nextId` field hands out fresh keys. The `Valid()` invariant says:
  - keys match ids;
  - a user's cart points back to the user;
  - a cart's line keys are distinct;
  - a cart has at most one line per product;
  - a cart line of a stored product carries that product's current record, as the database's reference to the product does.
- `cart_service.dfy`, `order_service.dfy`, `payment_service.dfy`, `product_service.dfy`: one module per service. Each state-changing service operation is a method on `Db` that preserves `Valid()`, specified by pure functions; the read-only order queries (`getOrdersByStatus`, `getOrderByIdForAdmin`, `getOrdersByUserId`, `getOrderStatistics`) are functions of the order table. Lemmas about these functions state the service's properties.
- `cart_page.dfy` (module `CartPage`): the page's selection handlers as pure functions. Each returns the new selection, as the page's state setters do.

Money is an integer number of minor units. Errors that the services throw are `Err` values of a `Result`.

## Model

| member | source | states |
|---|---|---|
| Shop.ToUpper | ecommerce/src/main/java/com/example/ecommerce/service/OrderService.java:209 | upper-casing keeps the length and maps each character to its upper-case form |
| Shop.ToUpperNormalises | ecommerce/src/main/java/com/example/ecommerce/service/OrderService.java:105 | upper-casing yields an upper-case string, is idempotent, and fixes exactly the upper-case strings |
| Shop.LinesWithIds | ecommerce/src/main/java/com/example/ecommerce/service/OrderService.java:62-64 | the filtered lines are exactly the cart lines whose key is selected |
| Shop.LinesWithoutIds | ecommerce/src/main/java/com/example/ecommerce/service/OrderService.java:89 | the lines left by removeAll are exactly the cart lines whose key is not selected |
| Shop.LinesWithIdsAppend | ecommerce/src/main/java/com/example/ecommerce/service/OrderService.java:62-64 | selecting lines keeps cart order (distributes over concatenation) |
| Shop.LinesWithoutIdsAppend | ecommerce/src/main/java/com/example/ecommerce/service/OrderService.java:89 | the lines left in the cart keep their order |
| Shop.LinesPartition | ecommerce/src/main/java/com/example/ecommerce/service/OrderService.java:58-89 | ordered lines and lines left together are the cart's lines, as a multiset |
| Shop.LinesWithAllIds | ecommerce/src/main/java/com/example/ecommerce/service/OrderService.java:59-60 | selecting every line key selects the whole cart and leaves nothing |
| Shop.LineIds | src/pages/Cart.jsx:30 | one key per line, in cart order |
| Shop.ToOrderItem | ecommerce/src/main/java/com/example/ecommerce/service/OrderService.java:71-78 | an order item's price times quantity is its line's total |
| Shop.ToOrderItems | ecommerce/src/main/java/com/example/ecommerce/service/OrderService.java:71-78 | one order item per line, in order, with the line's product, quantity and price |
| Shop.LinesTotalAppend | ecommerce/src/main/java/com/example/ecommerce/service/OrderService.java:82-84 | the total of two runs of lines is the sum of their totals |
| Shop.OrderTotalOfLines | ecommerce/src/main/java/com/example/ecommerce/service/OrderService.java:82-85 | the order total over its items equals the total over the cart lines ordered |
| Shop.LineTotal | ecommerce/src/main/java/com/example/ecommerce/service/OrderService.java:82-84 | definition: price times quantity of a line; its sums are stated by LinesTotalAppend and OrderTotalOfLines |
| Shop.LinesTotal | src/pages/Cart.jsx:67 | definition: the sum of LineTotal over lines; stated by LinesTotalAppend, AddLineTotal and TotalCountsSelectedLinesOnly |
| Shop.OrderTotal | ecommerce/src/main/java/com/example/ecommerce/service/OrderService.java:82-85 | definition: the sum of price times quantity over order items; OrderTotalOfLines ties it to LinesTotal |
| Shop.LinesCurrent | ecommerce/src/main/java/com/example/ecommerce/service/OrderService.java:74-76 | definition: each line of a stored product carries that product's stored record; kept by every service operation through Repository.Db.Valid |
| Repository.Db.Valid | ecommerce/src/main/java/com/example/ecommerce/service/CartService.java:36-47 | definition of the stored state: keys match ids, user and cart point at each other, a cart's line keys are distinct, one line per product, lines see current product records; every service method preserves it |
| Repository.Db.constructor | ecommerce/src/main/java/com/example/ecommerce/service/OrderService.java:31-38 | the empty tables satisfy Valid |
| CartService.FindLine | ecommerce/src/main/java/com/example/ecommerce/service/CartService.java:62-65 | finds the first line of the product, or reports that no line has it |
| CartService.AddLine | ecommerce/src/main/java/com/example/ecommerce/service/CartService.java:61-74 | the first line of the product gets its quantity raised and the other lines are unchanged; with no such line, a new line is appended |
| CartService.AddLineKeepsOneLinePerProduct | ecommerce/src/main/java/com/example/ecommerce/service/CartService.java:61-74 | adding keeps at most one line per product |
| CartService.AddLineKeepsDistinctIds | ecommerce/src/main/java/com/example/ecommerce/service/CartService.java:70-73 | adding with an unused key keeps line keys distinct |
| CartService.AddLineTotal | ecommerce/src/main/java/com/example/ecommerce/service/CartService.java:67-74 | adding raises the cart total by quantity times the price the product's line carries (the new product for an appended line); when the lines of the product carry the product itself, by price times quantity either way |
| CartService.LinesTotalUpdate | ecommerce/src/main/java/com/example/ecommerce/service/CartService.java:68 | changing one line changes the total by the difference of the line totals |
| CartService.RemoveProductLines | ecommerce/src/main/java/com/example/ecommerce/service/CartService.java:87 | removeIf keeps exactly the lines of other products; the result is shorter iff the product had a line |
| CartService.RemoveAbsentProduct | ecommerce/src/main/java/com/example/ecommerce/service/CartService.java:87-91 | removing a product with no line changes nothing |
| CartService.RemoveProductLinesAppend | ecommerce/src/main/java/com/example/ecommerce/service/CartService.java:87 | removal keeps the remaining lines in order |
| CartService.AddThenRemove | ecommerce/src/main/java/com/example/ecommerce/service/CartService.java:53-94 | removing a product undoes adding a new product; after a merge it is the same as removing directly |
| CartService.RemoveKeepsInvariants | ecommerce/src/main/java/com/example/ecommerce/service/CartService.java:87 | removal keeps line keys distinct and one line per product |
| CartService.CreateCart | ecommerce/src/main/java/com/example/ecommerce/service/CartService.java:35-48 | unknown user fails; an existing cart is returned unchanged; otherwise a new empty cart under a fresh key, linked both ways |
| CartService.AddProductToCart | ecommerce/src/main/java/com/example/ecommerce/service/CartService.java:54-77 | unknown cart, then unknown product, fail with no change; otherwise the cart's lines become AddLine of the stored product, a key is generated only for an appended line, and the cart total rises by the stored price times quantity |
| CartService.RemoveProductFromCart | ecommerce/src/main/java/com/example/ecommerce/service/CartService.java:83-94 | unknown cart fails; no line of the product fails with no change; otherwise every line of the product is dropped |
| CartService.GetCartItems | ecommerce/src/main/java/com/example/ecommerce/service/CartService.java:100-104 | the stored lines of the cart, or CartNotFound |
| CartService.GetCartById | ecommerce/src/main/java/com/example/ecommerce/service/CartService.java:110-113 | the stored cart, with distinct line keys and one line per product, or CartNotFound |
| CartService.GetCartByUserId | ecommerce/src/main/java/com/example/ecommerce/service/CartService.java:119-127 | unknown user fails; the existing cart, or a new one exactly as createCart makes it |
| OrderService.LinesToOrder | ecommerce/src/main/java/com/example/ecommerce/service/OrderService.java:58-65 | no selection or an empty one means every line; otherwise exactly the lines whose key is selected |
| OrderService.LinesLeft | ecommerce/src/main/java/com/example/ecommerce/service/OrderService.java:89 | the lines left: none for a whole-cart order, else the unselected ones; ordered and left together are the cart |
| OrderService.SelectsWholeCart | ecommerce/src/main/java/com/example/ecommerce/service/OrderService.java:59 | definition: a missing or empty selection stands for the whole cart; used by LinesToOrder and WholeCartOrder |
| OrderService.NewOrder | ecommerce/src/main/java/com/example/ecommerce/service/OrderService.java:53-85 | a PENDING order of the user, one item per line with the product's price, total = sum of price times quantity |
| OrderService.PlaceOrder | ecommerce/src/main/java/com/example/ecommerce/service/OrderService.java:49-89 | empty cart fails; a selection matching no line fails; otherwise a PENDING order of the selected lines with their total, and the unselected lines left |
| OrderService.OrderAtCurrentPrices | ecommerce/src/main/java/com/example/ecommerce/service/OrderService.java:74-76 | when the cart's lines carry the stored product records, every ordered item has the stored product and its current price |
| OrderService.WholeCartOrder | ecommerce/src/main/java/com/example/ecommerce/service/OrderService.java:59-60 | ordering the whole cart takes every line at its total and empties the cart |
| OrderService.PartialOrder | ecommerce/src/main/java/com/example/ecommerce/service/OrderService.java:62-89 | a partial order's items, remaining lines and total split over any division of the cart, keeping order |
| OrderService.ToOrderItemsAppend | ecommerce/src/main/java/com/example/ecommerce/service/OrderService.java:71-78 | item conversion keeps the order of lines |
| OrderService.LinesWithoutIdsKeepsInvariants | ecommerce/src/main/java/com/example/ecommerce/service/OrderService.java:89 | taking out the ordered lines keeps line keys distinct and one line per product |
| OrderService.PlaceOrderFromCart | ecommerce/src/main/java/com/example/ecommerce/service/OrderService.java:45-93 | unknown cart fails; failures change nothing; otherwise the order is stored under a fresh key, the cart keeps only the unordered lines, and every item has the stored product and its current price |
| OrderService.IsValidOrderStatus | ecommerce/src/main/java/com/example/ecommerce/service/OrderService.java:207-210 | definition: the upper-cased status is one of the six; stated by StatusValidityIgnoresCase and StatusSpellings |
| OrderService.StatusValidityIgnoresCase | ecommerce/src/main/java/com/example/ecommerce/service/OrderService.java:207-210 | status validity ignores case, and a valid status upper-cases to one of the six |
| OrderService.StatusSpellings | ecommerce/src/main/java/com/example/ecommerce/service/OrderService.java:208 | the six statuses are valid and already upper case; CREATED is not valid |
| OrderService.ChangeStatus | ecommerce/src/main/java/com/example/ecommerce/service/OrderService.java:125-130 | invalid status iff InvalidOrderStatus; otherwise only the status changes, to its upper-cased form |
| OrderService.UpdateOrderStatus | ecommerce/src/main/java/com/example/ecommerce/service/OrderService.java:120-143 | unknown order fails first, then an invalid status, with no change; otherwise only that order's status changes |
| OrderService.WithStatus | ecommerce/src/main/java/com/example/ecommerce/service/OrderService.java:159-163 | exactly the stored orders with that status |
| OrderService.OrdersByStatus | ecommerce/src/main/java/com/example/ecommerce/service/OrderService.java:104-109 | exactly the orders whose status is the upper-cased argument; all listed statuses are upper case |
| OrderService.OrdersByStatusIgnoresCase | ecommerce/src/main/java/com/example/ecommerce/service/OrderService.java:105 | listing by status ignores the argument's case |
| OrderService.IsRevenueStatus | ecommerce/src/main/java/com/example/ecommerce/service/OrderService.java:166 | definition: PAID, SHIPPED or DELIVERED; Completed selects exactly these orders |
| OrderService.OrderById | ecommerce/src/main/java/com/example/ecommerce/service/OrderService.java:112-116 | the stored order, or OrderNotFound |
| OrderService.OrdersOfUser | ecommerce/src/main/java/com/example/ecommerce/service/OrderService.java:146-154 | unknown user fails; otherwise exactly the orders of that user |
| OrderService.PlacedOrderListedForOwner | ecommerce/src/main/java/com/example/ecommerce/service/OrderService.java:45-56 | an order placed from a user's cart appears among that user's orders, beside the earlier ones |
| OrderService.Completed | ecommerce/src/main/java/com/example/ecommerce/service/OrderService.java:166 | exactly the PAID, SHIPPED and DELIVERED orders |
| OrderService.SumTotals | ecommerce/src/main/java/com/example/ecommerce/service/OrderService.java:167-169 | definition: the sum of the orders' total prices; SumTotalsRemove shows it is independent of summation order |
| OrderService.SumTotalsRemove | ecommerce/src/main/java/com/example/ecommerce/service/OrderService.java:167-169 | the revenue sum does not depend on the order of summation |
| OrderService.Unlisted | ecommerce/src/main/java/com/example/ecommerce/service/OrderService.java:208 | exactly the orders whose status is none of the six |
| OrderService.OrderStatistics | ecommerce/src/main/java/com/example/ecommerce/service/OrderService.java:157-181 | total = number of orders; each of the five counts is the number of orders with that status; the five counts plus PROCESSING plus unlisted make the total; revenue = sum over completed orders |
| OrderService.StatisticsPartition | ecommerce/src/main/java/com/example/ecommerce/service/OrderService.java:158-163 | each order is counted under exactly one status group |
| OrderService.KeysPartition | ecommerce/src/main/java/com/example/ecommerce/service/OrderService.java:158-163 | the status groups cover the table and are pairwise disjoint |
| OrderService.RevenueAfterReplace | ecommerce/src/main/java/com/example/ecommerce/service/OrderService.java:166-169 | replacing an order moves its total into or out of the revenue according to old and new status |
| OrderService.CompletedElsewhere | ecommerce/src/main/java/com/example/ecommerce/service/OrderService.java:166 | changing one order leaves the other completed orders as they were |
| PaymentService.SignedMessage | ecommerce/src/main/java/com/example/ecommerce/service/PaymentService.java:51 | the message is the gateway order id, a bar, then the payment id |
| PaymentService.SignedMessageDeterminesIds | ecommerce/src/main/java/com/example/ecommerce/service/PaymentService.java:51-54 | with bar-free gateway ids, the message determines both ids |
| PaymentService.OrdersMappedTo | ecommerce/src/main/java/com/example/ecommerce/service/PaymentService.java:56 | exactly the orders that record that gateway order id |
| PaymentService.MarkPaid | ecommerce/src/main/java/com/example/ecommerce/service/PaymentService.java:59-60 | status PAID and the payment id set; nothing else changes |
| PaymentService.CheckPayment | ecommerce/src/main/java/com/example/ecommerce/service/PaymentService.java:50-66 | mismatch gives false with no change, and false only on a mismatch; a match with no mapped order fails, with several mapped orders fails as the single-result lookup does; true only for a match with one mapped order, which alone is paid |
| PaymentService.CheckPaymentPaysMappedOrder | ecommerce/src/main/java/com/example/ecommerce/service/PaymentService.java:54-63 | a correct signature for the one mapped order pays exactly that order and returns true |
| PaymentService.PaidRegardlessOfPriorStatus | ecommerce/src/main/java/com/example/ecommerce/service/PaymentService.java:59 | the outcome does not depend on the order's prior status |
| PaymentService.RecordGatewayOrder | ecommerce/src/main/java/com/example/ecommerce/service/PaymentService.java:40-44 | unknown order fails; otherwise only that order's gateway id and status (CREATED) change |
| PaymentService.PaymentFlow | ecommerce/src/main/java/com/example/ecommerce/service/PaymentService.java:29-66 | after recording the gateway order, a correctly signed confirmation marks that order PAID with the payment id |
| PaymentService.PaymentRevenue | ecommerce/src/main/java/com/example/ecommerce/service/PaymentService.java:43 | between the two steps the order has an invalid, uncounted status; paying adds its total to revenue |
| PaymentService.RecordOnPaidDropsRevenue | ecommerce/src/main/java/com/example/ecommerce/service/PaymentService.java:40-44 | recording a gateway order for a PAID, SHIPPED or DELIVERED order sets it to CREATED, so its total leaves revenue: createOrder has no guard against completed orders |
| PaymentService.CreateOrder | ecommerce/src/main/java/com/example/ecommerce/service/PaymentService.java:29-47 | unknown order fails with no change; otherwise the table becomes RecordGatewayOrder's result |
| PaymentService.VerifyPayment | ecommerce/src/main/java/com/example/ecommerce/service/PaymentService.java:50-66 | returns and stores what CheckPayment decides; failures change nothing |
| ProductService.ApplyUpdate | ecommerce/src/main/java/com/example/ecommerce/service/ProductService.java:39-42 | name, price and description from the update; key, image and stock quantity kept |
| ProductService.UpdatesOverwrite | ecommerce/src/main/java/com/example/ecommerce/service/ProductService.java:39-42 | the later update wins; a no-op update changes nothing; an update changes nothing iff the three fields agree |
| ProductService.RefreshLines | ecommerce/src/main/java/com/example/ecommerce/service/ProductService.java:40-44 | every line of the product carries the new record afterwards; other lines, and every line key and quantity, are unchanged |
| ProductService.RefreshCarts | ecommerce/src/main/java/com/example/ecommerce/service/ProductService.java:40-44 | every cart keeps its key and has its lines refreshed |
| ProductService.RefreshKeepsKeys | ecommerce/src/main/java/com/example/ecommerce/service/ProductService.java:40-44 | refreshing keeps line keys distinct and one line per product |
| ProductService.RefreshKeepsCurrent | ecommerce/src/main/java/com/example/ecommerce/service/ProductService.java:40-44 | after refreshing, every line of a stored product sees the updated table, and line and product keys stay generated |
| ProductService.RefreshAllCarts | ecommerce/src/main/java/com/example/ecommerce/service/ProductService.java:40-44 | refreshing every cart for a stored product's new record keeps all carts valid against the updated table |
| ProductService.RefreshTotal | ecommerce/src/main/java/com/example/ecommerce/service/ProductService.java:40-44 | with one line per product, a product update moves the cart total by that line's quantity times the price change, and leaves a cart without the product unchanged |
| ProductService.RefreshAbsent | ecommerce/src/main/java/com/example/ecommerce/service/ProductService.java:40-44 | updating a product no line refers to leaves the cart's lines as they were |
| ProductService.RefreshOneLine | ecommerce/src/main/java/com/example/ecommerce/service/ProductService.java:40-44 | with one line per product, an update replaces only that product's line, with the new record |
| ProductService.SaveProduct | ecommerce/src/main/java/com/example/ecommerce/service/ProductService.java:19-21 | a stored key is overwritten and the product's cart lines see the new record; otherwise inserted under a fresh key with carts unchanged; the saved record is stored |
| ProductService.GetAllProducts | ecommerce/src/main/java/com/example/ecommerce/service/ProductService.java:23-25 | exactly the stored products |
| ProductService.DeleteProduct | ecommerce/src/main/java/com/example/ecommerce/service/ProductService.java:27-33 | true iff the key was stored; the product is gone afterwards |
| ProductService.UpdateProduct | ecommerce/src/main/java/com/example/ecommerce/service/ProductService.java:35-45 | unknown key fails with no change; otherwise only that product changes, as ApplyUpdate says, and the product's cart lines see the updated record |
| CartPage.LoadSelection | src/pages/Cart.jsx:26-31 | after loading, every line's key is selected in cart order, and the selection is well formed |
| CartPage.Without | src/pages/Cart.jsx:51 | every occurrence of the key removed, every other key kept |
| CartPage.WithoutCounts | src/pages/Cart.jsx:51 | removal takes away all occurrences of the key and none of the others |
| CartPage.Toggle | src/pages/Cart.jsx:48-54 | a selected key is removed, an unselected one appended; other keys unaffected |
| CartPage.ToggleTwice | src/pages/Cart.jsx:48-54 | toggling twice restores an unselected key's selection exactly, and a once-selected key's up to order |
| CartPage.ToggleKeepsSelectionOk | src/pages/Cart.jsx:48-54 | toggling a displayed line keeps the selection free of duplicates and of foreign keys |
| CartPage.SelectAll | src/pages/Cart.jsx:56-62 | equal lengths clear the selection; otherwise every line is selected |
| CartPage.SelectAllDeselectsIffAllSelected | src/pages/Cart.jsx:56-62 | on a well-formed selection, equal lengths mean every line is selected, so the button clears exactly then |
| CartPage.CalculateTotal | src/pages/Cart.jsx:64-69 | the total of the selected lines equals the line-by-line sum in which unselected lines count zero; nothing selected gives zero |
| CartPage.TotalCountsSelectedLinesOnly | src/pages/Cart.jsx:64-69 | filtering then summing equals the line-by-line sum (MaskedTotal) in which unselected lines count zero |
| CartPage.MaskedTotalBySet | src/pages/Cart.jsx:64-69 | the total depends only on which keys are selected |
| CartPage.LoadedTotal | src/pages/Cart.jsx:26-31 | right after loading, every line is counted and the total is the cart's total |
| CartPage.Checkout | src/pages/Cart.jsx:71-81 | an empty selection alerts; otherwise exactly the selection is posted for the cart |
| CartPage.CheckoutOrdersSelection | src/pages/Cart.jsx:71-81 | when the stored cart still holds the lines the page loaded, checking out a well-formed selection places an order of exactly the selected lines, with the total the page showed, and leaves the unselected lines |

## Left out

- Floating point. Prices and totals are doubles in the source. The page rounds with `toFixed(2)`, and `createOrder` converts the amount to paise with a truncating cast. Here money is exact integer minor units, so rounding is not modelled.
- CartService.AddLine: does not model 32-bit wrap-around of the summed quantity, because quantities are unbounded integers here. A negative or zero quantity is accepted, as in the source.
- Shop.ToUpper: upper-cases only ASCII letters. Java's locale-dependent, full-Unicode toUpperCase is not modelled.
- Clock-dependent parts are left out:
  - the order date;
  - the re-dating of SHIPPED/DELIVERED orders in updateOrderStatus;
  - the receipt timestamp;
  - the monthly revenue in getOrderStatistics.
- OrderService.OrderStatistics: carries no monthly-revenue field, because that figure depends on the current date.
- Nothing observes the status-change log line, so it is not modelled.
- The call to the payment gateway that creates its order is not modelled. CreateOrder takes the gateway order id as a parameter and returns it instead of the gateway's JSON reply. The amount passed to the gateway is not modelled.
- HMAC-SHA256 and its hex encoding are the parameter `hmac`, with no assumed properties, so no claim is made about forged signatures.
- Cart lines hold the product record, not a reference. Repository.Db.Valid makes a line of a stored product carry the current record, and ProductService.SaveProduct and ProductService.UpdateProduct refresh every cart line of that product, so the lines read like the database's reference. Deleting a product that carts or orders refer to is not constrained by foreign keys here. After a deletion, the lines keep the last record.
- Order items keep the product record of the time of ordering; the unit price is stored in the item in the source too. A later product update is not shown in an order item's product name or description.
- Product: only the fields the services and pages read are modelled (key, name, price, description, image URL, stock quantity). No modelled operation changes the stock, as in the source.
- Listings are maps and sets, not lists. Ordering by date (getAllOrdersForAdmin, getOrdersByStatus, getOrdersByUserId) is not modelled.
- getAllOrdersForAdmin is the whole order table, which here is the map itself, so it has no member of its own. DTO conversion (convertToDTO, ProductMapper) is not modelled.
- Transactions are not modelled; each method is one atomic update of the `Db` fields.
- The single-result lookup by gateway order id throws when several orders match. This is modelled as the error NonUniqueGatewayOrder.
- JPA save of a product whose key is set but not stored inserts it under a generated key here. The case that the persistence provider rejects a detached entity is not modelled.
- Users are created elsewhere (the user service is not part of this model). The model starts from a given user table.
- Not part of this model:
  - controllers;
  - JWT handling;
  - the other pages;
  - the page's remove button, which calls removeProductFromCart and reloads;
  - loading and error display.
