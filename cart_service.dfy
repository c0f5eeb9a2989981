/**
 * The cart service: one cart per user, adding a product to a cart (merging
 * into the product's line or appending a new one), removing every line of a
 * product, and reading a cart's lines.
 */
module CartService {
  import opened Shop
  import opened Repository

  // ---------------------------------------------------------------------------
  // Cart lines as values

  /** The position of the first line for `productId`, if any. */
  function FindLine(items: seq<CartItem>, productId: int): (r: Option<nat>)
    ensures r.Some? ==> r.value < |items| && items[r.value].product.id == productId
    ensures r.Some? ==> forall j :: 0 <= j < r.value ==> items[j].product.id != productId
    ensures r.None? <==> forall l :: l in items ==> l.product.id != productId
  {
    if items == [] then None
    else if items[0].product.id == productId then Some(0)
    else match FindLine(items[1..], productId)
      case None => None
      case Some(i) => Some(i + 1)
  }

  /**
   * The lines after adding `quantity` of `product`: the first line of that
   * product has its quantity raised, or else a line with key `lineId` is appended.
   */
  function AddLine(items: seq<CartItem>, product: Product, quantity: int, lineId: int): (r: seq<CartItem>)
    ensures FindLine(items, product.id).Some? ==>
      var i := FindLine(items, product.id).value;
      |r| == |items| &&
      r[i] == items[i].(quantity := items[i].quantity + quantity) &&
      forall j :: 0 <= j < |items| && j != i ==> r[j] == items[j]
    ensures FindLine(items, product.id).None? ==>
      r == items + [CartItem(lineId, product, quantity)]
  {
    match FindLine(items, product.id)
    case Some(i) => items[i := items[i].(quantity := items[i].quantity + quantity)]
    case None => items + [CartItem(lineId, product, quantity)]
  }

  /** Adding keeps "at most one line per product". */
  lemma AddLineKeepsOneLinePerProduct(items: seq<CartItem>, product: Product, quantity: int, lineId: int)
    requires OneLinePerProduct(items)
    ensures OneLinePerProduct(AddLine(items, product, quantity, lineId))
  {
    var r := AddLine(items, product, quantity, lineId);
    if FindLine(items, product.id).None? {
      forall i, j | 0 <= i < j < |r| ensures r[i].product.id != r[j].product.id {
        if j == |items| {
          assert r[i] == items[i] && items[i] in items;
        } else {
          assert r[i] == items[i] && r[j] == items[j];
        }
      }
    }
  }

  /** Adding keeps line keys distinct when the new key is unused. */
  lemma AddLineKeepsDistinctIds(items: seq<CartItem>, product: Product, quantity: int, lineId: int)
    requires DistinctIds(items)
    requires forall l :: l in items ==> l.id != lineId
    ensures DistinctIds(AddLine(items, product, quantity, lineId))
    ensures forall l :: l in AddLine(items, product, quantity, lineId) ==> l.id == lineId || l in items || l.id in LineIds(items)
  {
    var r := AddLine(items, product, quantity, lineId);
    match FindLine(items, product.id)
    case Some(i) =>
      forall l | l in r ensures l.id == lineId || l in items || l.id in LineIds(items) {
        var k :| 0 <= k < |r| && r[k] == l;
        assert l.id == items[k].id == LineIds(items)[k];
      }
    case None =>
      forall i, j | 0 <= i < j < |r| ensures r[i].id != r[j].id {
        if j == |items| {
          assert r[i] == items[i] && items[i] in items;
        }
      }
  }

  /**
   * Adding `quantity` raises the cart total by quantity times the price the
   * product's line carries: the merged line's record, or `product` for a new
   * line. When the lines of the product carry `product` itself, as they do in
   * a stored cart, that is price times quantity either way.
   */
  lemma {:induction false} AddLineTotal(items: seq<CartItem>, product: Product, quantity: int, lineId: int)
    ensures FindLine(items, product.id).None? ==>
      LinesTotal(AddLine(items, product, quantity, lineId)) == LinesTotal(items) + product.price * quantity
    ensures FindLine(items, product.id).Some? ==>
      LinesTotal(AddLine(items, product, quantity, lineId))
        == LinesTotal(items) + items[FindLine(items, product.id).value].product.price * quantity
    ensures (forall l :: l in items && l.product.id == product.id ==> l.product == product) ==>
      LinesTotal(AddLine(items, product, quantity, lineId)) == LinesTotal(items) + product.price * quantity
  {
    match FindLine(items, product.id)
    case None =>
      LinesTotalAppend(items, [CartItem(lineId, product, quantity)]);
    case Some(i) =>
      LinesTotalUpdate(items, i, items[i].(quantity := items[i].quantity + quantity));
      assert items[i] in items;
  }

  /** Replacing one line changes the total by the difference of the two lines' totals. */
  lemma {:induction false} LinesTotalUpdate(items: seq<CartItem>, i: nat, l: CartItem)
    requires i < |items|
    ensures LinesTotal(items[i := l]) == LinesTotal(items) - LineTotal(items[i]) + LineTotal(l)
  {
    if i > 0 {
      LinesTotalUpdate(items[1..], i - 1, l);
      assert items[i := l][1..] == items[1..][i - 1 := l];
    }
  }

  /** The lines that do not refer to `productId`, in cart order. */
  function RemoveProductLines(items: seq<CartItem>, productId: int): (r: seq<CartItem>)
    ensures |r| <= |items|
    ensures forall l :: l in r <==> l in items && l.product.id != productId
    ensures |r| == |items| <==> forall l :: l in items ==> l.product.id != productId
  {
    if items == [] then []
    else (if items[0].product.id != productId then [items[0]] else []) + RemoveProductLines(items[1..], productId)
  }

  /** Removing nothing leaves the lines as they were. */
  lemma {:induction false} RemoveAbsentProduct(items: seq<CartItem>, productId: int)
    requires forall l :: l in items ==> l.product.id != productId
    ensures RemoveProductLines(items, productId) == items
  {
    if items != [] {
      RemoveAbsentProduct(items[1..], productId);
    }
  }

  /** Removing distributes over concatenation, so the kept lines stay in order. */
  lemma {:induction false} RemoveProductLinesAppend(a: seq<CartItem>, b: seq<CartItem>, productId: int)
    ensures RemoveProductLines(a + b, productId) == RemoveProductLines(a, productId) + RemoveProductLines(b, productId)
  {
    if a == [] {
      assert a + b == b;
    } else {
      var head := if a[0].product.id != productId then [a[0]] else [];
      calc {
        RemoveProductLines(a + b, productId);
        { assert (a + b)[0] == a[0] && (a + b)[1..] == a[1..] + b; }
        head + RemoveProductLines(a[1..] + b, productId);
        { RemoveProductLinesAppend(a[1..], b, productId); }
        head + (RemoveProductLines(a[1..], productId) + RemoveProductLines(b, productId));
        (head + RemoveProductLines(a[1..], productId)) + RemoveProductLines(b, productId);
      }
    }
  }

  /** Removing a product undoes adding it: appending a line and removing the product
      gives back the cart; merging and removing is the same as removing. */
  lemma AddThenRemove(items: seq<CartItem>, product: Product, quantity: int, lineId: int)
    ensures FindLine(items, product.id).None? ==>
      RemoveProductLines(AddLine(items, product, quantity, lineId), product.id) == items
    ensures RemoveProductLines(AddLine(items, product, quantity, lineId), product.id)
         == RemoveProductLines(items, product.id)
  {
    var r := AddLine(items, product, quantity, lineId);
    match FindLine(items, product.id)
    case None =>
      RemoveProductLinesAppend(items, [CartItem(lineId, product, quantity)], product.id);
      RemoveAbsentProduct(items, product.id);
      assert RemoveProductLines([CartItem(lineId, product, quantity)], product.id) == [];
    case Some(i) =>
      assert items == items[..i] + [items[i]] + items[i + 1..];
      assert r == items[..i] + [r[i]] + items[i + 1..];
      RemoveProductLinesAppend(items[..i] + [items[i]], items[i + 1..], product.id);
      RemoveProductLinesAppend(items[..i], [items[i]], product.id);
      RemoveProductLinesAppend(items[..i] + [r[i]], items[i + 1..], product.id);
      RemoveProductLinesAppend(items[..i], [r[i]], product.id);
      assert RemoveProductLines([items[i]], product.id) == [];
      assert RemoveProductLines([r[i]], product.id) == [];
  }

  /** Removing keeps "at most one line per product" and distinct keys. */
  lemma {:induction false} RemoveKeepsInvariants(items: seq<CartItem>, productId: int)
    requires DistinctIds(items) && OneLinePerProduct(items)
    ensures DistinctIds(RemoveProductLines(items, productId))
    ensures OneLinePerProduct(RemoveProductLines(items, productId))
  {
    if items != [] {
      RemoveKeepsInvariants(items[1..], productId);
      var rest := RemoveProductLines(items[1..], productId);
      if items[0].product.id != productId {
        var r := [items[0]] + rest;
        forall j | 0 < j < |r| ensures r[0].id != r[j].id && r[0].product.id != r[j].product.id {
          assert r[j] in rest;
          var k :| 0 <= k < |items[1..]| && items[1..][k] == r[j];
          assert items[k + 1] == r[j];
        }
      }
    }
  }

  // ---------------------------------------------------------------------------
  // The service operations on the stored tables

  /**
   * createCart: fails for an unknown user; returns the user's cart when there is
   * one, changing nothing; otherwise stores a new empty cart under a fresh key,
   * linked with the user in both directions.
   */
  method CreateCart(db: Db, userId: int) returns (r: Result<Cart>)
    requires db.Valid()
    modifies db`users, db`carts, db`nextId
    ensures db.Valid()
    ensures userId !in old(db.users) ==>
      r == Err(UserNotFound) && unchanged(db)
    ensures userId in old(db.users) && old(db.users)[userId].cartId.Some? ==>
      r == Ok(old(db.carts)[old(db.users)[userId].cartId.value]) && unchanged(db)
    ensures userId in old(db.users) && old(db.users)[userId].cartId.None? ==>
      var id := old(db.nextId);
      id !in old(db.carts) &&
      r == Ok(Cart(id, userId, [])) &&
      db.carts == old(db.carts)[id := Cart(id, userId, [])] &&
      db.users == old(db.users)[userId := User(userId, Some(id))] &&
      db.nextId == id + 1
  {
    if userId !in db.users {
      return Err(UserNotFound);
    }
    var user := db.users[userId];
    if user.cartId.Some? {
      return Ok(db.carts[user.cartId.value]);
    }
    var cart := Cart(db.nextId, userId, []);
    db.users := db.users[userId := user.(cartId := Some(cart.id))];
    db.carts := db.carts[cart.id := cart];
    db.nextId := db.nextId + 1;
    r := Ok(cart);
  }

  /**
   * addProductToCart: fails for an unknown cart, then for an unknown product,
   * changing nothing; otherwise the cart's lines become AddLine of the stored
   * product; a key is generated only when a new line is appended.
   */
  method AddProductToCart(db: Db, cartId: int, productId: int, quantity: int) returns (r: Result<Cart>)
    requires db.Valid()
    modifies db`carts, db`nextId
    ensures db.Valid()
    ensures cartId !in old(db.carts) ==> r == Err(CartNotFound) && unchanged(db)
    ensures cartId in old(db.carts) && productId !in db.products ==>
      r == Err(ProductNotFound) && unchanged(db)
    ensures cartId in old(db.carts) && productId in db.products ==>
      var cart := old(db.carts)[cartId];
      var updated := cart.(items := AddLine(cart.items, db.products[productId], quantity, old(db.nextId)));
      r == Ok(updated) &&
      db.carts == old(db.carts)[cartId := updated]
    ensures cartId in old(db.carts) && productId in db.products ==>
      db.nextId == if FindLine(old(db.carts)[cartId].items, productId).Some? then old(db.nextId) else old(db.nextId) + 1
    ensures cartId in old(db.carts) && productId in db.products ==>
      LinesTotal(db.carts[cartId].items)
        == LinesTotal(old(db.carts)[cartId].items) + db.products[productId].price * quantity
  {
    if cartId !in db.carts {
      return Err(CartNotFound);
    }
    if productId !in db.products {
      return Err(ProductNotFound);
    }
    var cart := db.carts[cartId];
    var product := db.products[productId];
    var lineId := db.nextId;
    assert product.id == productId;
    AddLineKeepsOneLinePerProduct(cart.items, product, quantity, lineId);
    AddLineKeepsDistinctIds(cart.items, product, quantity, lineId);
    AddLineTotal(cart.items, product, quantity, lineId);
    var updated := cart.(items := AddLine(cart.items, product, quantity, lineId));
    db.carts := db.carts[cartId := updated];
    if FindLine(cart.items, productId).None? {
      db.nextId := db.nextId + 1;
    }
    forall l | l in updated.items ensures l.id < db.nextId {
      if l.id != lineId && l !in cart.items {
        var k :| 0 <= k < |cart.items| && LineIds(cart.items)[k] == l.id;
        assert cart.items[k] in cart.items;
      }
    }
    r := Ok(updated);
  }

  /**
   * removeProductFromCart: fails for an unknown cart; fails with "product not
   * found in cart", changing nothing, when no line refers to the product;
   * otherwise drops every line of the product and keeps the others in order.
   */
  method RemoveProductFromCart(db: Db, cartId: int, productId: int) returns (r: Result<Cart>)
    requires db.Valid()
    modifies db`carts
    ensures db.Valid()
    ensures cartId !in old(db.carts) ==> r == Err(CartNotFound) && unchanged(db)
    ensures cartId in old(db.carts) && (forall l :: l in old(db.carts)[cartId].items ==> l.product.id != productId) ==>
      r == Err(ProductNotInCart) && unchanged(db)
    ensures cartId in old(db.carts) && (exists l :: l in old(db.carts)[cartId].items && l.product.id == productId) ==>
      var cart := old(db.carts)[cartId];
      var updated := cart.(items := RemoveProductLines(cart.items, productId));
      r == Ok(updated) && db.carts == old(db.carts)[cartId := updated]
  {
    if cartId !in db.carts {
      return Err(CartNotFound);
    }
    var cart := db.carts[cartId];
    var kept := RemoveProductLines(cart.items, productId);
    var removed := |kept| < |cart.items|;
    if !removed {
      return Err(ProductNotInCart);
    }
    RemoveKeepsInvariants(cart.items, productId);
    var updated := cart.(items := kept);
    db.carts := db.carts[cartId := updated];
    r := Ok(updated);
  }

  /** getCartItems: the stored lines of the cart, or an error for an unknown cart. */
  method GetCartItems(db: Db, cartId: int) returns (r: Result<seq<CartItem>>)
    ensures cartId !in db.carts ==> r == Err(CartNotFound)
    ensures cartId in db.carts ==> r == Ok(db.carts[cartId].items)
  {
    if cartId !in db.carts {
      return Err(CartNotFound);
    }
    r := Ok(db.carts[cartId].items);
  }

  /** getCartById: the stored cart, or an error for an unknown key. */
  method GetCartById(db: Db, cartId: int) returns (r: Result<Cart>)
    requires db.Valid()
    ensures cartId !in db.carts ==> r == Err(CartNotFound)
    ensures cartId in db.carts ==>
      r.Ok? && r.value == db.carts[cartId] && r.value.id == cartId &&
      DistinctIds(r.value.items) && OneLinePerProduct(r.value.items)
  {
    if cartId !in db.carts {
      return Err(CartNotFound);
    }
    r := Ok(db.carts[cartId]);
  }

  /**
   * getCartByUserId: fails for an unknown user; returns the user's existing
   * cart, or creates one exactly as createCart does.
   */
  method GetCartByUserId(db: Db, userId: int) returns (r: Result<Cart>)
    requires db.Valid()
    modifies db`users, db`carts, db`nextId
    ensures db.Valid()
    ensures userId !in old(db.users) ==>
      r == Err(UserNotFound) && unchanged(db)
    ensures userId in old(db.users) && old(db.users)[userId].cartId.Some? ==>
      r == Ok(old(db.carts)[old(db.users)[userId].cartId.value]) && unchanged(db)
    ensures userId in old(db.users) && old(db.users)[userId].cartId.None? ==>
      var id := old(db.nextId);
      id !in old(db.carts) &&
      r == Ok(Cart(id, userId, [])) &&
      db.carts == old(db.carts)[id := Cart(id, userId, [])] &&
      db.users == old(db.users)[userId := User(userId, Some(id))] &&
      db.nextId == id + 1
  {
    if userId !in db.users {
      return Err(UserNotFound);
    }
    if db.users[userId].cartId.None? {
      r := CreateCart(db, userId);
      return;
    }
    r := Ok(db.carts[db.users[userId].cartId.value]);
  }
}
