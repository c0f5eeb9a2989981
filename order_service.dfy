/**
 * The order service: placing an order from all or some of a cart's lines,
 * validating and storing status changes, listing orders by status, and the
 * per-status counts and revenue of the order statistics.
 */
module OrderService {
  import opened Shop
  import opened Repository

  // ---------------------------------------------------------------------------
  // Placing an order from a cart

  /** A missing or empty selection stands for the whole cart. */
  predicate SelectsWholeCart(ids: Option<seq<int>>) {
    ids.None? || ids.value == []
  }

  /** The lines to order: all of them for a whole-cart selection, else those whose key is selected. */
  function LinesToOrder(items: seq<CartItem>, ids: Option<seq<int>>): (r: seq<CartItem>)
    ensures SelectsWholeCart(ids) ==> r == items
    ensures !SelectsWholeCart(ids) ==> forall l :: l in r <==> l in items && l.id in ids.value
  {
    if SelectsWholeCart(ids) then items else LinesWithIds(items, ids.value)
  }

  /** The lines left in the cart once the ordered ones are removed. */
  function LinesLeft(items: seq<CartItem>, ids: Option<seq<int>>): (r: seq<CartItem>)
    ensures SelectsWholeCart(ids) ==> r == []
    ensures !SelectsWholeCart(ids) ==> forall l :: l in r <==> l in items && l.id !in ids.value
    ensures multiset(LinesToOrder(items, ids)) + multiset(r) == multiset(items)
  {
    if SelectsWholeCart(ids) then []
    else
      LinesPartition(items, ids.value);
      LinesWithoutIds(items, ids.value)
  }

  /**
   * A new PENDING order for `lines`: one item per line with the line's product,
   * quantity and the product's price, and the total of price times quantity.
   */
  function NewOrder(orderId: int, userId: int, lines: seq<CartItem>): (o: Order)
    ensures o.id == orderId && o.userId == userId && o.status == PENDING
    ensures |o.items| == |lines|
    ensures forall i :: 0 <= i < |lines| ==>
      o.items[i] == OrderItem(lines[i].product, lines[i].quantity, lines[i].product.price)
    ensures o.totalPrice == OrderTotal(o.items) == LinesTotal(lines)
    ensures o.razorpayOrderId.None? && o.razorpayPaymentId.None?
  {
    var items := ToOrderItems(lines);
    OrderTotalOfLines(lines);
    Order(orderId, userId, PENDING, OrderTotal(items), items, None, None)
  }

  /** What placing an order yields: the new order and the lines left in the cart. */
  datatype Placement = Placement(order: Order, remaining: seq<CartItem>)

  /**
   * placeOrderFromCart on a loaded cart: an empty cart fails, a selection that
   * matches no line fails, and otherwise the selected lines become a new order
   * keyed `orderId` and are taken out of the cart.
   */
  function PlaceOrder(cart: Cart, ids: Option<seq<int>>, orderId: int): (r: Result<Placement>)
    ensures cart.items == [] ==> r == Err(CartEmpty)
    ensures cart.items != [] && LinesToOrder(cart.items, ids) == [] ==> r == Err(NoItemsSelected)
    ensures r.Err? ==> cart.items == [] || LinesToOrder(cart.items, ids) == []
    ensures r.Ok? ==>
      var o := r.value.order;
      o.status == PENDING && o.id == orderId && o.userId == cart.userId &&
      o.items == ToOrderItems(LinesToOrder(cart.items, ids)) &&
      o.totalPrice == OrderTotal(o.items) &&
      r.value.remaining == LinesLeft(cart.items, ids)
  {
    if cart.items == [] then Err(CartEmpty)
    else
      var lines := LinesToOrder(cart.items, ids);
      if lines == [] then Err(NoItemsSelected)
      else Ok(Placement(NewOrder(orderId, cart.userId, lines), LinesLeft(cart.items, ids)))
  }

  /** A whole-cart order takes every line and leaves the cart empty. */
  lemma WholeCartOrder(cart: Cart, ids: Option<seq<int>>, orderId: int)
    requires cart.items != [] && SelectsWholeCart(ids)
    ensures PlaceOrder(cart, ids, orderId).Ok?
    ensures PlaceOrder(cart, ids, orderId).value.order.items == ToOrderItems(cart.items)
    ensures PlaceOrder(cart, ids, orderId).value.order.totalPrice == LinesTotal(cart.items)
    ensures PlaceOrder(cart, ids, orderId).value.remaining == []
  {
  }

  /**
   * With a non-empty selection, the order holds exactly the selected lines in
   * cart order, every unselected line stays in the cart in order, and the order
   * total is the sum over the selected lines.
   */
  lemma {:induction false} PartialOrder(cart: Cart, ids: seq<int>, orderId: int, prefix: seq<CartItem>, suffix: seq<CartItem>)
    requires ids != [] && cart.items == prefix + suffix
    requires LinesWithIds(cart.items, ids) != []
    ensures PlaceOrder(cart, Some(ids), orderId).Ok?
    ensures PlaceOrder(cart, Some(ids), orderId).value.order.items
         == ToOrderItems(LinesWithIds(prefix, ids)) + ToOrderItems(LinesWithIds(suffix, ids))
    ensures PlaceOrder(cart, Some(ids), orderId).value.remaining
         == LinesWithoutIds(prefix, ids) + LinesWithoutIds(suffix, ids)
    ensures PlaceOrder(cart, Some(ids), orderId).value.order.totalPrice
         == LinesTotal(LinesWithIds(prefix, ids)) + LinesTotal(LinesWithIds(suffix, ids))
  {
    LinesWithIdsAppend(prefix, suffix, ids);
    LinesWithoutIdsAppend(prefix, suffix, ids);
    ToOrderItemsAppend(LinesWithIds(prefix, ids), LinesWithIds(suffix, ids));
    LinesTotalAppend(LinesWithIds(prefix, ids), LinesWithIds(suffix, ids));
  }

  lemma {:induction false} ToOrderItemsAppend(a: seq<CartItem>, b: seq<CartItem>)
    ensures ToOrderItems(a + b) == ToOrderItems(a) + ToOrderItems(b)
  {
    var r := ToOrderItems(a + b);
    assert forall i :: 0 <= i < |a + b| ==> r[i] == (ToOrderItems(a) + ToOrderItems(b))[i];
  }

  /**
   * When the cart's lines carry the stored product records, every item of the
   * placed order has the stored product and its current price.
   */
  lemma OrderAtCurrentPrices(cart: Cart, ids: Option<seq<int>>, orderId: int, products: map<int, Product>)
    requires LinesCurrent(cart.items, products)
    ensures PlaceOrder(cart, ids, orderId).Ok? ==>
      forall it :: it in PlaceOrder(cart, ids, orderId).value.order.items && it.product.id in products ==>
        it.product == products[it.product.id] && it.price == products[it.product.id].price
  {
    if PlaceOrder(cart, ids, orderId).Ok? {
      var items := PlaceOrder(cart, ids, orderId).value.order.items;
      var lines := LinesToOrder(cart.items, ids);
      forall it | it in items && it.product.id in products
        ensures it.product == products[it.product.id] && it.price == products[it.product.id].price
      {
        var k :| 0 <= k < |items| && items[k] == it;
        assert lines[k] in lines;
      }
    }
  }

  /** Dropping lines keeps line keys distinct and at most one line per product. */
  lemma {:induction false} LinesWithoutIdsKeepsInvariants(items: seq<CartItem>, ids: seq<int>)
    requires DistinctIds(items) && OneLinePerProduct(items)
    ensures DistinctIds(LinesWithoutIds(items, ids))
    ensures OneLinePerProduct(LinesWithoutIds(items, ids))
  {
    if items != [] {
      LinesWithoutIdsKeepsInvariants(items[1..], ids);
      var rest := LinesWithoutIds(items[1..], ids);
      if items[0].id !in ids {
        var r := [items[0]] + rest;
        forall j | 0 < j < |r| ensures r[0].id != r[j].id && r[0].product.id != r[j].product.id {
          assert r[j] in rest;
          var k :| 0 <= k < |items[1..]| && items[1..][k] == r[j];
          assert items[k + 1] == r[j];
        }
      }
    }
  }

  /**
   * placeOrderFromCart: fails for an unknown cart; on an empty cart or a
   * selection matching no line it fails before anything is stored; otherwise
   * it stores the new order under a fresh key and leaves only the unordered
   * lines in the cart.
   */
  method PlaceOrderFromCart(db: Db, cartId: int, ids: Option<seq<int>>) returns (r: Result<Order>)
    requires db.Valid()
    modifies db`orders, db`carts, db`nextId
    ensures db.Valid()
    ensures cartId !in old(db.carts) ==> r == Err(CartNotFound) && unchanged(db)
    ensures cartId in old(db.carts) && PlaceOrder(old(db.carts)[cartId], ids, old(db.nextId)).Err? ==>
      r == Err(PlaceOrder(old(db.carts)[cartId], ids, old(db.nextId)).error) && unchanged(db)
    ensures cartId in old(db.carts) && PlaceOrder(old(db.carts)[cartId], ids, old(db.nextId)).Ok? ==>
      var cart := old(db.carts)[cartId];
      var p := PlaceOrder(cart, ids, old(db.nextId)).value;
      old(db.nextId) !in old(db.orders) &&
      r == Ok(p.order) &&
      db.orders == old(db.orders)[p.order.id := p.order] &&
      db.carts == old(db.carts)[cartId := cart.(items := p.remaining)] &&
      db.nextId == old(db.nextId) + 1
    ensures r.Ok? ==>
      forall it :: it in r.value.items && it.product.id in db.products ==>
        it.product == db.products[it.product.id] && it.price == db.products[it.product.id].price
  {
    if cartId !in db.carts {
      return Err(CartNotFound);
    }
    var cart := db.carts[cartId];
    var placed := PlaceOrder(cart, ids, db.nextId);
    if placed.Err? {
      return Err(placed.error);
    }
    var p := placed.value;
    OrderAtCurrentPrices(cart, ids, db.nextId, db.products);
    if !SelectsWholeCart(ids) {
      LinesWithoutIdsKeepsInvariants(cart.items, ids.value);
    }
    db.orders := db.orders[p.order.id := p.order];
    db.carts := db.carts[cartId := cart.(items := p.remaining)];
    db.nextId := db.nextId + 1;
    r := Ok(p.order);
  }

  // ---------------------------------------------------------------------------
  // Order statuses

  /** isValidOrderStatus: the upper-cased status is one of the six order statuses. */
  predicate IsValidOrderStatus(status: string) {
    ToUpper(status) in ValidStatuses
  }

  /** Validity ignores case, and a valid status normalises to its upper-case spelling. */
  lemma StatusValidityIgnoresCase(status: string)
    ensures IsValidOrderStatus(status) <==> IsValidOrderStatus(ToUpper(status))
    ensures IsValidOrderStatus(status) ==> ToUpper(status) in ValidStatuses && IsUpper(ToUpper(status))
  {
    ToUpperNormalises(status);
  }

  /** The six statuses are their own upper-case forms, and the gateway status CREATED is not valid. */
  lemma StatusSpellings()
    ensures forall s :: s in ValidStatuses ==> IsValidOrderStatus(s) && ToUpper(s) == s
    ensures !IsValidOrderStatus(CREATED)
  {
    forall s | s in ValidStatuses ensures ToUpper(s) == s {
      assert IsUpper(s);
      ToUpperNormalises(s);
    }
    assert IsUpper(CREATED);
    ToUpperNormalises(CREATED);
  }

  /** The order with its status changed, or an error for an invalid status. */
  function ChangeStatus(o: Order, newStatus: string): (r: Result<Order>)
    ensures !IsValidOrderStatus(newStatus) <==> r == Err(InvalidOrderStatus(newStatus))
    ensures r.Ok? ==>
      r.value.status in ValidStatuses && r.value.status == ToUpper(newStatus) &&
      r.value == o.(status := r.value.status)
  {
    if !IsValidOrderStatus(newStatus) then Err(InvalidOrderStatus(newStatus))
    else Ok(o.(status := ToUpper(newStatus)))
  }

  /**
   * updateOrderStatus: an unknown order fails first, then an invalid status;
   * otherwise the stored order gets the upper-cased status and nothing else changes.
   */
  method UpdateOrderStatus(db: Db, orderId: int, newStatus: string) returns (r: Result<Order>)
    requires db.Valid()
    modifies db`orders
    ensures db.Valid()
    ensures orderId !in old(db.orders) ==> r == Err(OrderNotFound) && unchanged(db)
    ensures orderId in old(db.orders) && !IsValidOrderStatus(newStatus) ==>
      r == Err(InvalidOrderStatus(newStatus)) && unchanged(db)
    ensures orderId in old(db.orders) && IsValidOrderStatus(newStatus) ==>
      var o := old(db.orders)[orderId].(status := ToUpper(newStatus));
      r == Ok(o) && db.orders == old(db.orders)[orderId := o]
  {
    if orderId !in db.orders {
      return Err(OrderNotFound);
    }
    var changed := ChangeStatus(db.orders[orderId], newStatus);
    if changed.Err? {
      return changed;
    }
    db.orders := db.orders[orderId := changed.value];
    r := changed;
  }

  // ---------------------------------------------------------------------------
  // Listing and statistics

  /** The stored orders whose status is exactly `status`. */
  function WithStatus(orders: map<int, Order>, status: string): (r: map<int, Order>)
    ensures forall k :: k in r <==> k in orders && orders[k].status == status
    ensures forall k :: k in r ==> r[k] == orders[k]
  {
    map k | k in orders && orders[k].status == status :: orders[k]
  }

  /** getOrdersByStatus: the orders whose status is the upper-cased argument. */
  function OrdersByStatus(orders: map<int, Order>, status: string): (r: map<int, Order>)
    ensures forall k :: k in r <==> k in orders && orders[k].status == ToUpper(status)
    ensures forall k :: k in r ==> r[k] == orders[k] && IsUpper(r[k].status)
  {
    ToUpperNormalises(status);
    WithStatus(orders, ToUpper(status))
  }

  /** Listing by status ignores the case of the argument. */
  lemma OrdersByStatusIgnoresCase(orders: map<int, Order>, status: string)
    ensures OrdersByStatus(orders, status) == OrdersByStatus(orders, ToUpper(status))
  {
    ToUpperNormalises(status);
  }

  /** getOrderByIdForAdmin: the stored order, or an error for an unknown key. */
  function OrderById(orders: map<int, Order>, orderId: int): (r: Result<Order>)
    ensures orderId !in orders <==> r == Err(OrderNotFound)
    ensures r.Ok? ==> orderId in orders && r.value == orders[orderId]
  {
    if orderId in orders then Ok(orders[orderId]) else Err(OrderNotFound)
  }

  /** getOrdersByUserId: fails for an unknown user; otherwise the orders placed by that user. */
  function OrdersOfUser(users: map<int, User>, orders: map<int, Order>, userId: int): (r: Result<map<int, Order>>)
    ensures userId !in users <==> r == Err(UserNotFound)
    ensures r.Ok? ==> forall k :: k in r.value <==> k in orders && orders[k].userId == userId
    ensures r.Ok? ==> forall k :: k in r.value ==> r.value[k] == orders[k]
  {
    if userId !in users then Err(UserNotFound)
    else Ok(map k | k in orders && orders[k].userId == userId :: orders[k])
  }

  /**
   * An order placed from a known user's cart is listed among that user's
   * orders once stored, and the user's earlier orders stay listed.
   */
  lemma PlacedOrderListedForOwner(users: map<int, User>, orders: map<int, Order>, cart: Cart,
                                  ids: Option<seq<int>>, orderId: int)
    requires cart.userId in users && PlaceOrder(cart, ids, orderId).Ok?
    ensures var o := PlaceOrder(cart, ids, orderId).value.order;
      var listed := OrdersOfUser(users, orders[orderId := o], cart.userId);
      listed.Ok? && orderId in listed.value && listed.value[orderId] == o &&
      forall k :: k in OrdersOfUser(users, orders, cart.userId).value ==> k in listed.value
  {
  }

  /** The statuses whose orders count as revenue. */
  predicate IsRevenueStatus(status: string) {
    status == PAID || status == SHIPPED || status == DELIVERED
  }

  /** The stored orders that count as revenue. */
  function Completed(orders: map<int, Order>): (r: map<int, Order>)
    ensures forall k :: k in r <==> k in orders && IsRevenueStatus(orders[k].status)
    ensures forall k :: k in r ==> r[k] == orders[k]
  {
    map k | k in orders && IsRevenueStatus(orders[k].status) :: orders[k]
  }

  /** The sum of the total prices of the orders in `m`. */
  ghost function SumTotals(m: map<int, Order>): int
    decreases |m|
  {
    if |m| == 0 then 0
    else
      var k := SomeKey(m);
      assert (m - {k}).Keys == m.Keys - {k};
      m[k].totalPrice + SumTotals(m - {k})
  }

  /** Some key of a non-empty table; which one is irrelevant to the sums above. */
  ghost function SomeKey(m: map<int, Order>): (k: int)
    requires |m| != 0
    ensures k in m
  {
    if forall k :: k !in m.Keys then
      NoKeysMeansEmpty(m.Keys);
      assert false; 0
    else
      var k :| k in m.Keys; k
  }

  lemma NoKeysMeansEmpty(keys: set<int>)
    requires forall k :: k !in keys
    ensures keys == {}
  {
    assert forall k :: k in keys <==> k in {};
  }

  /** The sum does not depend on which order is taken out first. */
  lemma {:induction false} SumTotalsRemove(m: map<int, Order>, k: int)
    requires k in m
    ensures SumTotals(m) == m[k].totalPrice + SumTotals(m - {k})
    decreases |m|
  {
    var j := SomeKey(m);
    if j != k {
      assert (m - {j}).Keys == m.Keys - {j};
      assert (m - {k}).Keys == m.Keys - {k};
      SumTotalsRemove(m - {j}, k);
      SumTotalsRemove(m - {k}, j);
      assert m - {j} - {k} == m - {k} - {j};
    }
  }

  datatype OrderStats = OrderStats(
    totalOrders: nat,
    pendingOrders: nat,
    paidOrders: nat,
    shippedOrders: nat,
    deliveredOrders: nat,
    cancelledOrders: nat,
    totalRevenue: int)

  /** The stored orders whose status is none of the six order statuses. */
  function Unlisted(orders: map<int, Order>): (r: map<int, Order>)
    ensures forall k :: k in r <==> k in orders && orders[k].status !in ValidStatuses
  {
    map k | k in orders && orders[k].status !in ValidStatuses :: orders[k]
  }

  /**
   * getOrderStatistics, without the monthly figure: the number of orders, the
   * number with each of five statuses, and the summed totals of the PAID,
   * SHIPPED and DELIVERED orders. The five counts never exceed the total.
   */
  ghost function OrderStatistics(orders: map<int, Order>): (st: OrderStats)
    ensures st.totalOrders == |orders|
    ensures st.pendingOrders == |WithStatus(orders, PENDING)| && st.paidOrders == |WithStatus(orders, PAID)|
    ensures st.shippedOrders == |WithStatus(orders, SHIPPED)| && st.deliveredOrders == |WithStatus(orders, DELIVERED)|
    ensures st.cancelledOrders == |WithStatus(orders, CANCELLED)|
    ensures st.pendingOrders + st.paidOrders + st.shippedOrders + st.deliveredOrders + st.cancelledOrders
         + |WithStatus(orders, PROCESSING)| + |Unlisted(orders)| == st.totalOrders
    ensures st.totalRevenue == SumTotals(Completed(orders))
  {
    StatisticsPartition(orders);
    OrderStats(
      |orders|,
      |WithStatus(orders, PENDING)|,
      |WithStatus(orders, PAID)|,
      |WithStatus(orders, SHIPPED)|,
      |WithStatus(orders, DELIVERED)|,
      |WithStatus(orders, CANCELLED)|,
      SumTotals(Completed(orders)))
  }

  /** Every order is counted under exactly one of its status, PROCESSING, or none of the six. */
  lemma StatisticsPartition(orders: map<int, Order>)
    ensures |WithStatus(orders, PENDING)| + |WithStatus(orders, PAID)| + |WithStatus(orders, SHIPPED)|
          + |WithStatus(orders, DELIVERED)| + |WithStatus(orders, CANCELLED)|
          + |WithStatus(orders, PROCESSING)| + |Unlisted(orders)| == |orders|
  {
    var a := WithStatus(orders, PENDING).Keys;
    var b := WithStatus(orders, PAID).Keys;
    var c := WithStatus(orders, SHIPPED).Keys;
    var d := WithStatus(orders, DELIVERED).Keys;
    var e := WithStatus(orders, CANCELLED).Keys;
    var f := WithStatus(orders, PROCESSING).Keys;
    var g := Unlisted(orders).Keys;
    KeysPartition(orders);
    DisjointUnionCard(a, b);
    DisjointUnionCard(a + b, c);
    DisjointUnionCard(a + b + c, d);
    DisjointUnionCard(a + b + c + d, e);
    DisjointUnionCard(a + b + c + d + e, f);
    DisjointUnionCard(a + b + c + d + e + f, g);
  }

  /** The key sets of the seven status groups cover the table and do not overlap. */
  lemma KeysPartition(orders: map<int, Order>)
    ensures var a, b, c, d := WithStatus(orders, PENDING).Keys, WithStatus(orders, PAID).Keys,
                              WithStatus(orders, SHIPPED).Keys, WithStatus(orders, DELIVERED).Keys;
            var e, f, g := WithStatus(orders, CANCELLED).Keys, WithStatus(orders, PROCESSING).Keys,
                           Unlisted(orders).Keys;
            orders.Keys == a + b + c + d + e + f + g &&
            a !! b && a + b !! c && a + b + c !! d && a + b + c + d !! e &&
            a + b + c + d + e !! f && a + b + c + d + e + f !! g
  {
  }

  lemma DisjointUnionCard(a: set<int>, b: set<int>)
    requires a !! b
    ensures |a + b| == |a| + |b|
  {
  }

  /**
   * Replacing one stored order by a record with the same total moves that total
   * into or out of the revenue: the revenue loses it if the old status counted
   * and gains it if the new one does. A status change is such a replacement.
   */
  lemma RevenueAfterReplace(orders: map<int, Order>, k: int, o: Order)
    requires k in orders && o.totalPrice == orders[k].totalPrice
    ensures SumTotals(Completed(orders[k := o]))
         == SumTotals(Completed(orders))
          - (if IsRevenueStatus(orders[k].status) then o.totalPrice else 0)
          + (if IsRevenueStatus(o.status) then o.totalPrice else 0)
  {
    var before := Completed(orders);
    var after := Completed(orders[k := o]);
    CompletedElsewhere(orders, k, o);
    if k in before {
      SumTotalsRemove(before, k);
    } else {
      assert before - {k} == before;
    }
    if k in after {
      SumTotalsRemove(after, k);
    } else {
      assert after - {k} == after;
    }
  }

  /** Replacing order `k` leaves the other revenue orders as they were. */
  lemma CompletedElsewhere(orders: map<int, Order>, k: int, o: Order)
    ensures Completed(orders[k := o]) - {k} == Completed(orders) - {k}
  {
    var a := Completed(orders[k := o]) - {k};
    var b := Completed(orders) - {k};
    assert a.Keys == b.Keys;
    assert forall j :: j in a ==> a[j] == b[j];
  }
}
