/**
 * The product service: saving, listing, deleting and updating products in
 * the product table.
 */
module ProductService {
  import opened Shop
  import opened Repository
  import CartService

  /** The product after an update: name, price and description from `updated`, the rest kept. */
  function ApplyUpdate(existing: Product, updated: Product): (p: Product)
    ensures p.name == updated.name && p.price == updated.price && p.description == updated.description
    ensures p.id == existing.id && p.imageUrl == existing.imageUrl && p.stockQuantity == existing.stockQuantity
  {
    existing.(name := updated.name, price := updated.price, description := updated.description)
  }

  /**
   * An update keeps only the three copied fields of its argument: of two
   * updates in a row the second decides, and an update with a product's own
   * fields changes nothing.
   */
  lemma UpdatesOverwrite(existing: Product, first: Product, second: Product)
    ensures ApplyUpdate(ApplyUpdate(existing, first), second) == ApplyUpdate(existing, second)
    ensures ApplyUpdate(existing, existing) == existing
    ensures ApplyUpdate(existing, second) == existing <==>
      second.name == existing.name && second.price == existing.price && second.description == existing.description
  {
  }

  // ---------------------------------------------------------------------------
  // Cart lines follow the stored product

  /** The lines with every line of product `p.id` now carrying the record `p`; other lines unchanged. */
  function RefreshLines(items: seq<CartItem>, p: Product): (r: seq<CartItem>)
    ensures |r| == |items|
    ensures forall i :: 0 <= i < |items| ==>
      r[i] == if items[i].product.id == p.id then items[i].(product := p) else items[i]
  {
    if items == [] then []
    else [if items[0].product.id == p.id then items[0].(product := p) else items[0]] + RefreshLines(items[1..], p)
  }

  /** Every cart with its lines refreshed to carry `p`. */
  function RefreshCarts(carts: map<int, Cart>, p: Product): (r: map<int, Cart>)
    ensures r.Keys == carts.Keys
    ensures forall c :: c in carts ==> r[c] == carts[c].(items := RefreshLines(carts[c].items, p))
  {
    map c | c in carts :: carts[c].(items := RefreshLines(carts[c].items, p))
  }

  /** Refreshing keeps every line key and product key in place, so distinctness is kept. */
  lemma RefreshKeepsKeys(items: seq<CartItem>, p: Product)
    ensures DistinctIds(items) ==> DistinctIds(RefreshLines(items, p))
    ensures OneLinePerProduct(items) ==> OneLinePerProduct(RefreshLines(items, p))
  {
    var r := RefreshLines(items, p);
    assert forall i :: 0 <= i < |r| ==> r[i].id == items[i].id && r[i].product.id == items[i].product.id;
  }

  /** After refreshing, each line of a stored product sees the updated table, and key bounds are kept. */
  lemma RefreshKeepsCurrent(items: seq<CartItem>, products: map<int, Product>, p: Product, bound: int)
    requires LinesCurrent(items, products)
    requires forall l :: l in items ==> l.id < bound && l.product.id < bound
    ensures LinesCurrent(RefreshLines(items, p), products[p.id := p])
    ensures forall l :: l in RefreshLines(items, p) ==> l.id < bound && l.product.id < bound
  {
    var r := RefreshLines(items, p);
    var updated := products[p.id := p];
    forall l | l in r
      ensures l.id < bound && l.product.id < bound
      ensures l.product.id in updated ==> l.product == updated[l.product.id]
    {
      var i :| 0 <= i < |r| && r[i] == l;
      assert items[i] in items;
    }
  }

  /**
   * With one line per product, refreshing changes at most the product's one
   * line, so the cart total moves by that line's quantity times the price change.
   */
  lemma RefreshTotal(items: seq<CartItem>, p: Product)
    requires OneLinePerProduct(items)
    ensures CartService.FindLine(items, p.id).None? ==> RefreshLines(items, p) == items
    ensures CartService.FindLine(items, p.id).Some? ==>
      var i := CartService.FindLine(items, p.id).value;
      LinesTotal(RefreshLines(items, p))
        == LinesTotal(items) - items[i].product.price * items[i].quantity + p.price * items[i].quantity
  {
    match CartService.FindLine(items, p.id)
    case None =>
      RefreshAbsent(items, p);
    case Some(i) =>
      RefreshOneLine(items, p, i);
      CartService.LinesTotalUpdate(items, i, items[i].(product := p));
  }

  /** Refreshing a product no line refers to changes nothing. */
  lemma RefreshAbsent(items: seq<CartItem>, p: Product)
    requires forall l :: l in items ==> l.product.id != p.id
    ensures RefreshLines(items, p) == items
  {
    var r := RefreshLines(items, p);
    forall j | 0 <= j < |items| ensures r[j] == items[j] {
      assert items[j] in items;
    }
  }

  /** With one line per product, refreshing replaces only that product's line. */
  lemma RefreshOneLine(items: seq<CartItem>, p: Product, i: nat)
    requires OneLinePerProduct(items) && i < |items| && items[i].product.id == p.id
    ensures RefreshLines(items, p) == items[i := items[i].(product := p)]
  {
    var r := RefreshLines(items, p);
    var u := items[i := items[i].(product := p)];
    forall j | 0 <= j < |items| ensures r[j] == u[j] {
      if j != i {
        assert items[j].product.id != p.id;
      }
    }
  }

  /** Refreshing every cart for a stored product's new record keeps the carts valid against the updated table. */
  lemma RefreshAllCarts(db: Db, p: Product)
    requires db.Valid() && p.id in db.products
    ensures var carts := RefreshCarts(db.carts, p);
      forall c :: c in carts ==>
        carts[c].id == c && c < db.nextId &&
        DistinctIds(carts[c].items) && OneLinePerProduct(carts[c].items) &&
        LinesCurrent(carts[c].items, db.products[p.id := p]) &&
        (forall l :: l in carts[c].items ==> l.id < db.nextId && l.product.id < db.nextId)
  {
    var carts := RefreshCarts(db.carts, p);
    forall c | c in carts
      ensures DistinctIds(carts[c].items) && OneLinePerProduct(carts[c].items)
      ensures LinesCurrent(carts[c].items, db.products[p.id := p])
      ensures forall l :: l in carts[c].items ==> l.id < db.nextId && l.product.id < db.nextId
    {
      RefreshKeepsKeys(db.carts[c].items, p);
      RefreshKeepsCurrent(db.carts[c].items, db.products, p, db.nextId);
    }
  }

  /**
   * saveProduct: a product whose key is stored replaces the stored record, and
   * the cart lines of that product see the new record; any other product is
   * inserted under a newly generated key, which no cart line refers to. Either
   * way the saved record is then among the stored products, so getAllProducts
   * lists it.
   */
  method SaveProduct(db: Db, product: Product) returns (saved: Product)
    requires db.Valid()
    modifies db`products, db`nextId, db`carts
    ensures db.Valid()
    ensures saved.id in db.products && db.products[saved.id] == saved
    ensures product.id in old(db.products) ==>
      saved == product && db.products == old(db.products)[product.id := product] &&
      db.carts == RefreshCarts(old(db.carts), product) && db.nextId == old(db.nextId)
    ensures product.id !in old(db.products) ==>
      var id := old(db.nextId);
      id !in old(db.products) &&
      saved == product.(id := id) && db.products == old(db.products)[id := saved] &&
      db.carts == old(db.carts) && db.nextId == id + 1
  {
    if product.id in db.products {
      saved := product;
      RefreshAllCarts(db, saved);
      db.carts := RefreshCarts(db.carts, saved);
    } else {
      saved := product.(id := db.nextId);
      db.nextId := db.nextId + 1;
    }
    db.products := db.products[saved.id := saved];
    assert db.products[saved.id] == saved;
  }

  /** getAllProducts: every stored product. */
  method GetAllProducts(db: Db) returns (all: set<Product>)
    requires db.Valid()
    ensures forall p :: p in all <==> p.id in db.products && db.products[p.id] == p
  {
    all := set id | id in db.products :: db.products[id];
    forall p | p in all ensures p.id in db.products && db.products[p.id] == p {
      var id :| id in db.products && db.products[id] == p;
    }
  }

  /** deleteProduct: true and the product removed when its key is stored, else false and no change. */
  method DeleteProduct(db: Db, id: int) returns (deleted: bool)
    requires db.Valid()
    modifies db`products
    ensures db.Valid()
    ensures deleted <==> id in old(db.products)
    ensures db.products == old(db.products) - {id}
    ensures !deleted ==> db.products == old(db.products)
  {
    if id in db.products {
      db.products := db.products - {id};
      return true;
    }
    assert db.products - {id} == db.products;
    return false;
  }

  /**
   * updateProduct: an unknown key fails and changes nothing; otherwise the
   * stored product takes the new name, price and description, every other
   * field and every other product stays as it was, and the cart lines of that
   * product see the updated record.
   */
  method UpdateProduct(db: Db, id: int, updated: Product) returns (r: Result<Product>)
    requires db.Valid()
    modifies db`products, db`carts
    ensures db.Valid()
    ensures id !in old(db.products) ==> r == Err(ProductNotFound) && unchanged(db)
    ensures id in old(db.products) ==>
      var p := ApplyUpdate(old(db.products)[id], updated);
      r == Ok(p) &&
      db.products == old(db.products)[id := p] &&
      db.carts == RefreshCarts(old(db.carts), p)
  {
    if id !in db.products {
      return Err(ProductNotFound);
    }
    var p := ApplyUpdate(db.products[id], updated);
    RefreshAllCarts(db, p);
    db.carts := RefreshCarts(db.carts, p);
    db.products := db.products[id := p];
    r := Ok(p);
  }
}
