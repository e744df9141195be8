/**
 * The repository-based orders route for a signed-in user: GET lists the
 * user's orders; POST builds an order from the user's cart entries, saves
 * it and then removes the entries. The two writes are separate repository
 * calls with no transaction around them.
 */
module OrdersOrm {
  import opened Common
  import opened CartStore

  datatype OrmProduct = OrmProduct(id: ProductId, price: int)

  /** A cart entity with its product relation loaded. */
  datatype CartEntry = CartEntry(id: string, userId: string, product: OrmProduct, quantity: int)

  datatype OrmItem = OrmItem(product: OrmProduct, quantity: int, price: int)

  datatype OrmOrder = OrmOrder(
    id: string,
    userId: string,
    total: int,
    status: string,
    shippingAddress: Option<string>,
    items: seq<OrmItem>)

  /** The message every exception in this route turns into. */
  const InternalError := "Internal server error"

  /** The user's cart entries, as the repository finds them. */
  function EntriesOf(carts: seq<CartEntry>, userId: string): (r: seq<CartEntry>)
    ensures forall e :: e in r <==> e in carts && e.userId == userId
  {
    Filter(carts, (e: CartEntry) => e.userId == userId)
  }

  /** The carts once the user's entries are removed. */
  function WithoutEntriesOf(carts: seq<CartEntry>, userId: string): (r: seq<CartEntry>)
    ensures forall e :: e in r <==> e in carts && e.userId != userId
  {
    Filter(carts, (e: CartEntry) => e.userId != userId)
  }

  /** The order total: the sum of the product price times the quantity over the entries. */
  function EntriesTotal(entries: seq<CartEntry>): int {
    if entries == [] then 0
    else EntriesTotal(entries[..|entries| - 1]) + entries[|entries| - 1].product.price * entries[|entries| - 1].quantity
  }

  function ItemsTotal(items: seq<OrmItem>): int {
    if items == [] then 0
    else ItemsTotal(items[..|items| - 1]) + items[|items| - 1].price * items[|items| - 1].quantity
  }

  /**
   * The loop that fills `order.items`: one item per cart entry, in order, with
   * the entry's product and quantity and the product's current price.
   */
  method BuildItems(entries: seq<CartEntry>) returns (items: seq<OrmItem>)
    ensures |items| == |entries|
    ensures forall k :: 0 <= k < |entries| ==>
              items[k].product == entries[k].product && items[k].quantity == entries[k].quantity
              && items[k].price == entries[k].product.price
    ensures ItemsTotal(items) == EntriesTotal(entries)
  {
    items := [];
    for i := 0 to |entries|
      invariant |items| == i
      invariant forall k :: 0 <= k < i ==>
                  items[k].product == entries[k].product && items[k].quantity == entries[k].quantity
                  && items[k].price == entries[k].product.price
      invariant ItemsTotal(items) == EntriesTotal(entries[..i])
    {
      var e := entries[i];
      items := items + [OrmItem(e.product, e.quantity, e.product.price)];
      assert entries[..i + 1][..i] == entries[..i];
    }
    assert entries[..|entries|] == entries;
  }

  /** The repository's view of the `orders` and `cart` tables. */
  class OrmStore {
    var orders: seq<OrmOrder>
    var carts: seq<CartEntry>

    constructor()
      ensures orders == [] && carts == []
    {
      orders := [];
      carts := [];
    }
  }

  /** GET: only the orders whose user is the signed-in user, in repository order. */
  function History(orders: seq<OrmOrder>, userId: string): (r: Http<seq<OrmOrder>>)
    ensures r.Ok? && r.code == 200
    ensures forall o :: o in r.body <==> o in orders && o.userId == userId
  {
    Ok(200, Filter(orders, (o: OrmOrder) => o.userId == userId))
  }

  /** The order the route saves: pending, for the user, with the given address and the built items. */
  function PendingOrder(id: string, userId: string, entries: seq<CartEntry>, address: Option<string>, items: seq<OrmItem>): (o: OrmOrder)
    ensures o.status == "pending" && o.userId == userId && o.shippingAddress == address && o.items == items
    ensures ItemsTotal(items) == EntriesTotal(entries) ==> o.total == ItemsTotal(o.items)
  {
    OrmOrder(id, userId, EntriesTotal(entries), "pending", address, items)
  }

  /**
   * POST: an empty cart is refused; otherwise the order is saved first and the
   * cart entries removed after. A failing save leaves both tables as they
   * were; a failing removal leaves the saved order in place with the cart
   * untouched, since nothing rolls the save back.
   */
  method Checkout(store: OrmStore, userId: string, address: Option<string>, orderId: string,
                  saveFails: bool, removeFails: bool) returns (r: Http<OrmOrder>)
    modifies store
    ensures var entries := EntriesOf(old(store.carts), userId);
      && (entries == [] ==>
            r == Fail(400, "Cart is empty") && store.orders == old(store.orders) && store.carts == old(store.carts))
      && (entries != [] && saveFails ==>
            r == Fail(500, InternalError) && store.orders == old(store.orders) && store.carts == old(store.carts))
      && (entries != [] && !saveFails ==>
            && |store.orders| == |old(store.orders)| + 1
            && store.orders[..|old(store.orders)|] == old(store.orders)
            && var saved := store.orders[|old(store.orders)|];
            && saved.id == orderId && saved.userId == userId && saved.status == "pending"
            && saved.shippingAddress == address && saved.total == EntriesTotal(entries)
            && |saved.items| == |entries|
            && (forall k :: 0 <= k < |entries| ==>
                  saved.items[k].product == entries[k].product
                  && saved.items[k].quantity == entries[k].quantity && saved.items[k].price == entries[k].product.price)
            && ItemsTotal(saved.items) == saved.total
            && (removeFails ==> r == Fail(500, InternalError) && store.carts == old(store.carts))
            && (!removeFails ==> r == Ok(201, saved) && store.carts == WithoutEntriesOf(old(store.carts), userId)))
  {
    var entries := EntriesOf(store.carts, userId);
    if |entries| == 0 {
      return Fail(400, "Cart is empty");
    }
    var items := BuildItems(entries);
    var order := PendingOrder(orderId, userId, entries, address, items);
    if saveFails {
      return Fail(500, InternalError);
    }
    store.orders := store.orders + [order];
    if removeFails {
      return Fail(500, InternalError);
    }
    store.carts := WithoutEntriesOf(store.carts, userId);
    r := Ok(201, order);
  }
}
