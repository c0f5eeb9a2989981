/**
 * The records of the shop backend (products, cart lines, carts, users, orders)
 * as values, the error cases the services raise, and the small list functions
 * shared by the backend services and the cart page: selecting lines by id,
 * mapping lines to order items and summing price times quantity.
 *
 * Money is an integer number of minor currency units (paise, cents).
 */
module Shop {

  datatype Option<T> = None | Some(value: T)

  /** The exceptions the services throw, one constructor per message. */
  datatype Error =
    | UserNotFound
    | CartNotFound
    | CartEmpty
    | NoItemsSelected
    | ProductNotFound
    | ProductNotInCart
    | OrderNotFound
    | InvalidOrderStatus(status: string)
    | GatewayOrderNotFound
    | NonUniqueGatewayOrder

  datatype Result<T> = Ok(value: T) | Err(error: Error)

  datatype Product = Product(id: int, name: string, price: int, description: string, imageUrl: string,
                             stockQuantity: int)

  /**
   * A cart line: the product it refers to and how many of it. The line holds
   * the product record; the stored state keeps it equal to the product table's
   * record (see `LinesCurrent`), as the database's reference to the product does.
   */
  datatype CartItem = CartItem(id: int, product: Product, quantity: int)

  datatype Cart = Cart(id: int, userId: int, items: seq<CartItem>)

  datatype User = User(id: int, cartId: Option<int>)

  /** An order line: the product, the quantity and the unit price at the time of ordering. */
  datatype OrderItem = OrderItem(product: Product, quantity: int, price: int)

  datatype Order = Order(
    id: int,
    userId: int,
    status: string,
    totalPrice: int,
    items: seq<OrderItem>,
    razorpayOrderId: Option<string>,
    razorpayPaymentId: Option<string>)

  // ---------------------------------------------------------------------------
  // Order statuses and upper-casing

  const PENDING: string := "PENDING"
  const PAID: string := "PAID"
  const PROCESSING: string := "PROCESSING"
  const SHIPPED: string := "SHIPPED"
  const DELIVERED: string := "DELIVERED"
  const CANCELLED: string := "CANCELLED"
  /** The status the payment service stores when it maps a gateway order. */
  const CREATED: string := "CREATED"

  const ValidStatuses: seq<string> := [PENDING, PAID, PROCESSING, SHIPPED, DELIVERED, CANCELLED]

  predicate IsLower(c: char) { 'a' <= c <= 'z' }

  function UpperChar(c: char): (u: char)
    ensures !IsLower(u)
    ensures IsLower(c) ==> u as int == c as int - 32
    ensures !IsLower(c) ==> u == c
  {
    if IsLower(c) then (c as int - 32) as char else c
  }

  /** String.toUpperCase restricted to ASCII letters. */
  function ToUpper(s: string): (r: string)
    ensures |r| == |s|
    ensures forall i :: 0 <= i < |s| ==> r[i] == UpperChar(s[i])
  {
    if s == [] then [] else [UpperChar(s[0])] + ToUpper(s[1..])
  }

  /** A string is in upper case when it has no lower-case letter. */
  predicate IsUpper(s: string) {
    forall i :: 0 <= i < |s| ==> !IsLower(s[i])
  }

  /** Upper-casing yields an upper-case string, and leaves one unchanged. */
  lemma ToUpperNormalises(s: string)
    ensures IsUpper(ToUpper(s))
    ensures IsUpper(s) <==> ToUpper(s) == s
    ensures ToUpper(ToUpper(s)) == ToUpper(s)
  {
    if IsUpper(s) {
      assert forall i :: 0 <= i < |s| ==> ToUpper(s)[i] == s[i];
    }
    var u := ToUpper(s);
    assert forall i :: 0 <= i < |u| ==> ToUpper(u)[i] == u[i];
  }

  // ---------------------------------------------------------------------------
  // Selecting lines by id

  /** The lines whose id is in `ids`, in cart order. */
  function LinesWithIds(items: seq<CartItem>, ids: seq<int>): (r: seq<CartItem>)
    ensures |r| <= |items|
    ensures forall l :: l in r <==> l in items && l.id in ids
  {
    if items == [] then []
    else (if items[0].id in ids then [items[0]] else []) + LinesWithIds(items[1..], ids)
  }

  /** The lines whose id is not in `ids`, in cart order. */
  function LinesWithoutIds(items: seq<CartItem>, ids: seq<int>): (r: seq<CartItem>)
    ensures |r| <= |items|
    ensures forall l :: l in r <==> l in items && l.id !in ids
  {
    if items == [] then []
    else (if items[0].id !in ids then [items[0]] else []) + LinesWithoutIds(items[1..], ids)
  }

  /** Selecting keeps the cart order: it distributes over concatenation. */
  lemma {:induction false} LinesWithIdsAppend(a: seq<CartItem>, b: seq<CartItem>, ids: seq<int>)
    ensures LinesWithIds(a + b, ids) == LinesWithIds(a, ids) + LinesWithIds(b, ids)
  {
    if a == [] {
      assert a + b == b;
    } else {
      assert (a + b)[1..] == a[1..] + b;
      LinesWithIdsAppend(a[1..], b, ids);
      assert LinesWithIds(a + b, ids)
          == (if a[0].id in ids then [a[0]] else []) + LinesWithIds(a[1..] + b, ids);
    }
  }

  /** Dropping keeps the cart order: it distributes over concatenation. */
  lemma {:induction false} LinesWithoutIdsAppend(a: seq<CartItem>, b: seq<CartItem>, ids: seq<int>)
    ensures LinesWithoutIds(a + b, ids) == LinesWithoutIds(a, ids) + LinesWithoutIds(b, ids)
  {
    if a == [] {
      assert a + b == b;
    } else {
      assert (a + b)[1..] == a[1..] + b;
      LinesWithoutIdsAppend(a[1..], b, ids);
      assert LinesWithoutIds(a + b, ids)
          == (if a[0].id !in ids then [a[0]] else []) + LinesWithoutIds(a[1..] + b, ids);
    }
  }

  /** The selected and the unselected lines together are exactly the lines. */
  lemma {:induction false} LinesPartition(items: seq<CartItem>, ids: seq<int>)
    ensures multiset(LinesWithIds(items, ids)) + multiset(LinesWithoutIds(items, ids)) == multiset(items)
    ensures |LinesWithIds(items, ids)| + |LinesWithoutIds(items, ids)| == |items|
  {
    if items != [] {
      LinesPartition(items[1..], ids);
      assert items == [items[0]] + items[1..];
    }
  }

  /** Selecting with every line id selects every line. */
  lemma {:induction false} LinesWithAllIds(items: seq<CartItem>, ids: seq<int>)
    requires forall l :: l in items ==> l.id in ids
    ensures LinesWithIds(items, ids) == items
    ensures LinesWithoutIds(items, ids) == []
  {
    if items != [] {
      LinesWithAllIds(items[1..], ids);
    }
  }

  /** The ids of the lines, in cart order. */
  function LineIds(items: seq<CartItem>): (r: seq<int>)
    ensures |r| == |items|
    ensures forall i :: 0 <= i < |items| ==> r[i] == items[i].id
  {
    if items == [] then [] else [items[0].id] + LineIds(items[1..])
  }

  /** No two lines share an id (the id is the table's primary key). */
  predicate DistinctIds(items: seq<CartItem>) {
    forall i, j :: 0 <= i < j < |items| ==> items[i].id != items[j].id
  }

  /** No two lines refer to the same product. */
  predicate OneLinePerProduct(items: seq<CartItem>) {
    forall i, j :: 0 <= i < j < |items| ==> items[i].product.id != items[j].product.id
  }

  /** Every line of a stored product carries that product's stored record. */
  predicate LinesCurrent(items: seq<CartItem>, products: map<int, Product>) {
    forall l :: l in items && l.product.id in products ==> l.product == products[l.product.id]
  }

  // ---------------------------------------------------------------------------
  // Totals

  /** Price times quantity of a cart line, at the product's price. */
  function LineTotal(l: CartItem): int { l.product.price * l.quantity }

  /** Sum of price times quantity over cart lines. */
  function LinesTotal(items: seq<CartItem>): int {
    if items == [] then 0 else LineTotal(items[0]) + LinesTotal(items[1..])
  }

  /** Sum of price times quantity over order items. */
  function OrderTotal(items: seq<OrderItem>): int {
    if items == [] then 0 else items[0].price * items[0].quantity + OrderTotal(items[1..])
  }

  lemma {:induction false} LinesTotalAppend(a: seq<CartItem>, b: seq<CartItem>)
    ensures LinesTotal(a + b) == LinesTotal(a) + LinesTotal(b)
  {
    if a == [] {
      assert a + b == b;
    } else {
      assert (a + b)[1..] == a[1..] + b;
      LinesTotalAppend(a[1..], b);
    }
  }

  /** The order item made from a cart line: its product, its quantity, the product's price. */
  function ToOrderItem(l: CartItem): (oi: OrderItem)
    ensures oi.price * oi.quantity == LineTotal(l)
  {
    OrderItem(l.product, l.quantity, l.product.price)
  }

  /** One order item per line, in the same order. */
  function ToOrderItems(items: seq<CartItem>): (r: seq<OrderItem>)
    ensures |r| == |items|
    ensures forall i :: 0 <= i < |items| ==> r[i] == ToOrderItem(items[i])
  {
    if items == [] then [] else [ToOrderItem(items[0])] + ToOrderItems(items[1..])
  }

  /** Converting lines to order items keeps their total. */
  lemma {:induction false} OrderTotalOfLines(items: seq<CartItem>)
    ensures OrderTotal(ToOrderItems(items)) == LinesTotal(items)
  {
    if items != [] {
      OrderTotalOfLines(items[1..]);
    }
  }
}
