/**
 * The persistence layer as one object: each JPA repository is a map from
 * primary key to record, and `nextId` stands for the database's key generator.
 * The services change these maps in place; `Valid` is what every stored state
 * satisfies and every service operation preserves.
 */
module Repository {
  import opened Shop

  class Db {
    var users: map<int, User>
    var carts: map<int, Cart>
    var products: map<int, Product>
    var orders: map<int, Order>
    /** The next key the generator hands out; every generated key so far is below it. */
    var nextId: int

    /** Every user's cart exists and points back at that user. */
    ghost predicate UsersValid()
      reads this
    {
      forall u :: u in users ==>
        users[u].id == u &&
        (users[u].cartId.Some? ==>
          users[u].cartId.value in carts && carts[users[u].cartId.value].userId == u)
    }

    /**
     * Carts are stored under their key, and their lines have distinct, generated
     * keys and at most one line per product. A line refers to a product by a
     * generated key and, while that product is stored, sees its current record.
     */
    ghost predicate CartsValid()
      reads this
    {
      forall c :: c in carts ==>
        carts[c].id == c && c < nextId &&
        DistinctIds(carts[c].items) &&
        OneLinePerProduct(carts[c].items) &&
        LinesCurrent(carts[c].items, products) &&
        (forall l :: l in carts[c].items ==> l.id < nextId && l.product.id < nextId)
    }

    ghost predicate ProductsValid()
      reads this
    {
      forall p :: p in products ==> products[p].id == p && p < nextId
    }

    ghost predicate OrdersValid()
      reads this
    {
      forall o :: o in orders ==> orders[o].id == o && o < nextId
    }

    ghost predicate Valid()
      reads this
    {
      UsersValid() && CartsValid() && ProductsValid() && OrdersValid()
    }

    constructor ()
      ensures Valid()
      ensures users == map[] && carts == map[] && products == map[] && orders == map[]
    {
      users, carts, products, orders := map[], map[], map[], map[];
      nextId := 1;
    }
  }
}
