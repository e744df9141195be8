/**
 * The orders endpoint: POST turns the caller's cart into an order with one
 * snapshot item per cart row and clears the cart, all inside one
 * transaction; GET reads one order with its items, or a user's orders
 * newest first.
 */
module OrdersApi {
  import opened Common
  import opened CartStore
  import opened Ledger

  /** The payment methods the request schema admits. */
  const PaymentMethods: seq<string> := ["mobile_money", "card", "tigo_pesa", "airtel_money", "vodacom", "halo_pesa"]

  datatype CreateOrder = CreateOrder(
    userId: Option<string>,
    guestToken: Option<string>,
    phone: Option<string>,
    address: Option<string>,
    notes: Option<string>,
    paymentMethod: Option<string>)

  /** The schema: phone and address are required, the payment method is optional but must be a known one. */
  predicate Accepted(req: CreateOrder) {
    req.phone.Some? && req.address.Some? && (req.paymentMethod.None? || req.paymentMethod.value in PaymentMethods)
  }

  /** An absent payment method defaults to mobile money. */
  function MethodOf(req: CreateOrder): string {
    if req.paymentMethod.Some? then req.paymentMethod.value else "mobile_money"
  }

  /**
   * Whose cart is checked out: the user when `user_id` is given, else the guest
   * token. With neither, the query compares against NULL and finds no row.
   */
  function CheckoutOwner(req: CreateOrder): Option<Owner> {
    if Truthy(req.userId) then Some(User(req.userId.value))
    else if req.guestToken.Some? then Some(Guest(req.guestToken.value))
    else None
  }

  /** The cart rows read for checkout: the owner's lines joined with their products. */
  function CheckoutRows(lines: seq<CartLine>, catalog: Catalog, req: CreateOrder): (rows: seq<CartRow>)
    ensures CheckoutOwner(req).None? ==> rows == []
    ensures CheckoutOwner(req).Some? ==> forall row :: row in rows ==>
              row.line in lines && row.line.owner == CheckoutOwner(req).value
              && row.line.product in catalog && row.product == catalog[row.line.product]
    ensures CheckoutOwner(req).Some? ==> forall l :: l in lines && l.owner == CheckoutOwner(req).value && l.product in catalog ==>
              CartRow(l, catalog[l.product]) in rows
  {
    match CheckoutOwner(req)
    case None => []
    case Some(owner) => Joined(OwnedBy(lines, owner), catalog)
  }

  /** The order total: the sum of price times quantity over the rows. */
  function Total(rows: seq<CartRow>): (t: int)
    ensures rows == [] ==> t == 0
    ensures (forall k :: 0 <= k < |rows| ==> rows[k].product.price >= 0 && rows[k].line.quantity >= 0) ==> t >= 0
  {
    if rows == [] then 0
    else Total(rows[..|rows| - 1]) + rows[|rows| - 1].product.price * rows[|rows| - 1].line.quantity
  }

  /** The order line a cart row becomes: the product's id, name and price at checkout. */
  function SnapshotItem(orderId: OrderId, row: CartRow): (it: OrderItem)
    ensures it.orderId == orderId && it.productId == Some(row.line.product)
    ensures it.name == row.product.name && it.price == row.product.price && it.quantity == row.line.quantity
    ensures it.subtotal == it.price * it.quantity
  {
    OrderItem(orderId, Some(row.line.product), row.product.name, row.product.price, row.line.quantity,
              row.product.price * row.line.quantity)
  }

  /** One snapshot item per cart row, in the order the rows were read. */
  function Snapshot(orderId: OrderId, rows: seq<CartRow>): (r: seq<OrderItem>)
    ensures |r| == |rows|
    ensures forall k :: 0 <= k < |rows| ==> r[k] == SnapshotItem(orderId, rows[k])
  {
    seq(|rows|, k requires 0 <= k < |rows| => SnapshotItem(orderId, rows[k]))
  }

  function SumSubtotals(items: seq<OrderItem>): int {
    if items == [] then 0 else SumSubtotals(items[..|items| - 1]) + items[|items| - 1].subtotal
  }

  /** The subtotals of an order's items add up to the order's total. */
  lemma {:induction false} SnapshotAddsUp(orderId: OrderId, rows: seq<CartRow>)
    ensures SumSubtotals(Snapshot(orderId, rows)) == Total(rows)
  {
    if rows != [] {
      var n := |rows|;
      SnapshotAddsUp(orderId, rows[..n - 1]);
      assert Snapshot(orderId, rows)[..n - 1] == Snapshot(orderId, rows[..n - 1]);
    }
  }

  // ---------------------------------------------------------------------------
  // Order numbers: `ORD-<milliseconds>-<random below 10000>`

  function OrderNumber(now: nat, random: nat): (s: string)
    requires random < 10000
    ensures StartsWith(s, "ORD-")
  {
    StartsWithPrefix("ORD-", NatToString(now) + "-" + NatToString(random));
    "ORD-" + NatToString(now) + "-" + NatToString(random)
  }

  /** An order number splits at its dashes into the prefix, the time and the random part, which read back. */
  lemma OrderNumberParts(now: nat, random: nat)
    requires random < 10000
    ensures Split(OrderNumber(now, random), '-') == ["ORD", NatToString(now), NatToString(random)]
    ensures ParseNat(NatToString(now)) == now && ParseNat(NatToString(random)) == random
  {
    var parts := ["ORD", NatToString(now), NatToString(random)];
    DigitsHaveNoDash(now);
    DigitsHaveNoDash(random);
    assert Free("ORD", '-');
    assert Join(parts, "-") == OrderNumber(now, random) by {
      assert parts[1..][1..] == [NatToString(random)];
      assert Join(parts[1..], "-") == NatToString(now) + "-" + NatToString(random);
    }
    SplitJoin(parts, '-');
    ParseNatToString(now);
    ParseNatToString(random);
  }

  /** Two orders get the same number only when both the time and the random part agree. */
  lemma OrderNumberInjective(t1: nat, r1: nat, t2: nat, r2: nat)
    requires r1 < 10000 && r2 < 10000
    requires OrderNumber(t1, r1) == OrderNumber(t2, r2)
    ensures t1 == t2 && r1 == r2
  {
    OrderNumberParts(t1, r1);
    OrderNumberParts(t2, r2);
    NatToStringInjective(t1, t2);
    NatToStringInjective(r1, r2);
  }

  // ---------------------------------------------------------------------------
  // POST: checkout

  /** The row INSERTed into `orders`: pending, unpaid, NULL user for a guest and NULL notes when empty. */
  function NewOrder(req: CreateOrder, id: OrderId, number: string, total: int, now: int): (o: Order)
    requires Accepted(req)
    ensures o.id == id && o.orderNumber == number && o.total == total
    ensures o.status == OrderPending && o.paymentStatus == PaymentPending
    ensures o.paymentMethod == (if req.paymentMethod.None? then "mobile_money" else req.paymentMethod.value)
    ensures o.userId.Some? <==> Truthy(req.userId)
    ensures Truthy(req.userId) ==> o.userId == req.userId
    ensures o.phone == req.phone.value && o.address == req.address.value
    ensures o.notes == (if Truthy(req.notes) then req.notes else None)
    ensures o.provider.None? && o.providerTxId.None? && o.paidAt.None?
  {
    Order(id, if Truthy(req.userId) then req.userId else None, number, OrderPending, total, MethodOf(req),
          PaymentPending, req.phone.value, req.address.value, if Truthy(req.notes) then req.notes else None,
          None, None, None, None, now)
  }

  datatype Placed = Placed(orderId: OrderId, orderNumber: string)

  /**
   * Whether one of the transaction's statements throws: 0 is the order INSERT,
   * 1..n the item INSERTs, n + 1 the cart DELETE.
   */
  predicate Faults(fault: Option<nat>, n: nat) {
    fault.Some? && fault.value <= n + 1
  }

  /**
   * POST: check out the caller's cart. Either the order, all of its items and
   * the cleared cart are stored together, or (a statement threw and the
   * transaction rolled back) none of them is.
   */
  method Create(ledger: OrderTable, cart: CartItems, catalog: Catalog, req: CreateOrder,
                orderId: OrderId, now: nat, random: nat, fault: Option<nat>) returns (r: Http<Placed>)
    requires ledger.Valid() && cart.Valid()
    requires orderId !in OrderIds(ledger.orders) && random < 10000
    modifies ledger, cart
    ensures ledger.Valid() && cart.Valid()
    ensures !Accepted(req) ==>
              r == Fail(500, InvalidBody) && ledger.orders == old(ledger.orders) && ledger.items == old(ledger.items)
              && cart.lines == old(cart.lines)
    ensures Accepted(req) && CheckoutRows(old(cart.lines), catalog, req) == [] ==>
              r == Fail(400, "Cart is empty") && ledger.orders == old(ledger.orders) && ledger.items == old(ledger.items)
              && cart.lines == old(cart.lines)
    ensures Accepted(req) && CheckoutRows(old(cart.lines), catalog, req) != []
            && Faults(fault, |CheckoutRows(old(cart.lines), catalog, req)|) ==>
              r == Fail(500, DbError) && ledger.orders == old(ledger.orders) && ledger.items == old(ledger.items)
              && cart.lines == old(cart.lines)
    ensures Accepted(req) && CheckoutRows(old(cart.lines), catalog, req) != []
            && !Faults(fault, |CheckoutRows(old(cart.lines), catalog, req)|) ==>
              var rows := CheckoutRows(old(cart.lines), catalog, req);
              && r == Ok(200, Placed(orderId, OrderNumber(now, random)))
              && ledger.orders == old(ledger.orders) + [NewOrder(req, orderId, OrderNumber(now, random), Total(rows), now)]
              && ledger.items == old(ledger.items) + Snapshot(orderId, rows)
              && cart.lines == WithoutOwner(old(cart.lines), CheckoutOwner(req).value)
  {
    if !Accepted(req) {
      return Fail(500, InvalidBody);
    }
    var rows := CheckoutRows(cart.lines, catalog, req);
    if |rows| == 0 {
      return Fail(400, "Cart is empty");
    }
    r := PlaceOrder(ledger, cart, req, rows, orderId, now, random, fault);
  }

  /**
   * The transaction of a checkout whose cart rows were read and found
   * non-empty: the order INSERT, one INSERT per item, then the cart DELETE,
   * all rolled back when one of them throws.
   */
  method PlaceOrder(ledger: OrderTable, cart: CartItems, req: CreateOrder, rows: seq<CartRow>,
                    orderId: OrderId, now: nat, random: nat, fault: Option<nat>) returns (r: Http<Placed>)
    requires ledger.Valid() && cart.Valid() && Accepted(req) && CheckoutOwner(req).Some?
    requires orderId !in OrderIds(ledger.orders) && random < 10000
    modifies ledger, cart
    ensures ledger.Valid() && cart.Valid()
    ensures Faults(fault, |rows|) ==>
              r == Fail(500, DbError) && ledger.orders == old(ledger.orders) && ledger.items == old(ledger.items)
              && cart.lines == old(cart.lines)
    ensures !Faults(fault, |rows|) ==>
              && r == Ok(200, Placed(orderId, OrderNumber(now, random)))
              && ledger.orders == old(ledger.orders) + [NewOrder(req, orderId, OrderNumber(now, random), Total(rows), now)]
              && ledger.items == old(ledger.items) + Snapshot(orderId, rows)
              && cart.lines == WithoutOwner(old(cart.lines), CheckoutOwner(req).value)
  {
    var savedOrders, savedItems := ledger.orders, ledger.items;
    var number := OrderNumber(now, random);
    var snapshot := Snapshot(orderId, rows);
    var ok := ledger.InsertOrderWithItems(NewOrder(req, orderId, number, Total(rows), now), snapshot, fault);
    if !ok {
      return Fail(500, DbError);
    }
    if fault == Some(|rows| + 1) {
      ledger.Rollback(savedOrders, savedItems);
      return Fail(500, DbError);
    }
    cart.DeleteOwner(CheckoutOwner(req).value);
    r := Ok(200, Placed(orderId, number));
  }

  // ---------------------------------------------------------------------------
  // GET

  /** The items of one order, as the `json_agg` sub-select collects them (NULL when there are none). */
  function ItemsOf(items: seq<OrderItem>, orderId: OrderId): (r: Option<seq<OrderItem>>)
    ensures r.Some? ==> r.value != [] && forall it :: it in r.value <==> it in items && it.orderId == orderId
    ensures r.None? ==> forall it :: it in items ==> it.orderId != orderId
  {
    if items == [] then None
    else
      var rest := ItemsOf(items[..|items| - 1], orderId);
      var last := items[|items| - 1];
      assert items == items[..|items| - 1] + [last];
      if last.orderId != orderId then rest
      else if rest.None? then Some([last])
      else Some(rest.value + [last])
  }

  datatype OrderView = OrderView(order: Order, orderItems: Option<seq<OrderItem>>)

  datatype OrdersReply = One(view: OrderView) | Many(views: seq<OrderView>)

  predicate NewestFirst(orders: seq<Order>) {
    forall i, j :: 0 <= i < j < |orders| ==> orders[i].createdAt >= orders[j].createdAt
  }

  /** Putting an order no older than the head in front keeps a list newest first. */
  lemma ConsNewestFirst(x: Order, rest: seq<Order>)
    requires NewestFirst(rest) && (rest == [] || x.createdAt >= rest[0].createdAt)
    ensures NewestFirst([x] + rest)
  {
    var r := [x] + rest;
    forall i, j | 0 <= i < j < |r| ensures r[i].createdAt >= r[j].createdAt {
      assert r[j] == rest[j - 1];
      if i > 0 {
        assert r[i] == rest[i - 1];
      } else if j > 1 {
        assert rest[0].createdAt >= rest[j - 1].createdAt;
      }
    }
  }

  /** Inserts `o` in front of the first order that is not newer than it. */
  function InsertByAge(o: Order, sorted: seq<Order>): (r: seq<Order>)
    ensures |r| == |sorted| + 1 && (r[0] == o || (sorted != [] && r[0] == sorted[0]))
  {
    if sorted == [] then [o]
    else if o.createdAt >= sorted[0].createdAt then [o] + sorted
    else [sorted[0]] + InsertByAge(o, sorted[1..])
  }

  /** Inserting into a newest-first list keeps it newest first. */
  lemma {:induction false} InsertByAgeSorted(o: Order, sorted: seq<Order>)
    requires NewestFirst(sorted)
    ensures NewestFirst(InsertByAge(o, sorted))
  {
    if sorted == [] {
    } else if o.createdAt >= sorted[0].createdAt {
      ConsNewestFirst(o, sorted);
    } else {
      var tail := sorted[1..];
      assert NewestFirst(tail) by {
        forall i, j | 0 <= i < j < |tail| ensures tail[i].createdAt >= tail[j].createdAt {
          assert tail[i] == sorted[i + 1] && tail[j] == sorted[j + 1];
        }
      }
      InsertByAgeSorted(o, tail);
      var rest := InsertByAge(o, tail);
      assert rest[0].createdAt <= sorted[0].createdAt by {
        if rest[0] != o { assert rest[0] == sorted[1]; }
      }
      ConsNewestFirst(sorted[0], rest);
    }
  }

  /** Inserting adds exactly the one order. */
  lemma {:induction false} InsertByAgePermutes(o: Order, sorted: seq<Order>)
    ensures multiset(InsertByAge(o, sorted)) == multiset(sorted) + multiset{o}
  {
    if sorted != [] && o.createdAt < sorted[0].createdAt {
      InsertByAgePermutes(o, sorted[1..]);
      assert sorted == [sorted[0]] + sorted[1..];
    }
  }

  /** `ORDER BY created_at DESC`: the same rows, newest first. */
  function SortNewestFirst(orders: seq<Order>): (r: seq<Order>)
    ensures NewestFirst(r) && multiset(r) == multiset(orders)
  {
    if orders == [] then []
    else
      var init, last := orders[..|orders| - 1], orders[|orders| - 1];
      assert orders == init + [last];
      InsertByAgeSorted(last, SortNewestFirst(init));
      InsertByAgePermutes(last, SortNewestFirst(init));
      InsertByAge(last, SortNewestFirst(init))
  }

  function OrdersOf(orders: seq<Order>, userId: string): (r: seq<Order>)
    ensures multiset(r) <= multiset(orders)
    ensures forall o :: o in r <==> o in orders && o.userId == Some(userId)
  {
    if orders == [] then []
    else
      var rest := OrdersOf(orders[..|orders| - 1], userId);
      var last := orders[|orders| - 1];
      assert orders == orders[..|orders| - 1] + [last];
      if last.userId == Some(userId) then rest + [last] else rest
  }

  function View(o: Order, items: seq<OrderItem>): OrderView {
    OrderView(o, ItemsOf(items, o.id))
  }

  function Orders(views: seq<OrderView>): seq<Order> {
    seq(|views|, k requires 0 <= k < |views| => views[k].order)
  }

  /** Sorting neither adds nor drops an order. */
  lemma SortKeepsMembers(orders: seq<Order>)
    ensures forall o :: o in SortNewestFirst(orders) <==> o in orders
  {
    var sorted := SortNewestFirst(orders);
    forall o ensures o in sorted <==> o in orders {
      assert o in sorted <==> o in multiset(sorted);
      assert o in orders <==> o in multiset(orders);
    }
  }

  /** Each order of a listing with its items, in the listing's order. */
  function ViewsOf(sorted: seq<Order>, items: seq<OrderItem>): (views: seq<OrderView>)
    ensures |views| == |sorted|
    ensures forall k :: 0 <= k < |sorted| ==> views[k] == View(sorted[k], items)
  {
    seq(|sorted|, k requires 0 <= k < |sorted| => View(sorted[k], items))
  }

  /** A user's orders, newest first, each with its items. */
  function UserViews(orders: seq<Order>, items: seq<OrderItem>, userId: string): (views: seq<OrderView>)
    ensures forall v :: v in views ==> v == View(v.order, items)
    ensures forall o :: o in orders && o.userId == Some(userId) <==> exists v :: v in views && v.order == o
    ensures NewestFirst(Orders(views))
    ensures multiset(Orders(views)) == multiset(OrdersOf(orders, userId))
  {
    var sorted := SortNewestFirst(OrdersOf(orders, userId));
    var views := ViewsOf(sorted, items);
    assert Orders(views) == sorted;
    SortKeepsMembers(OrdersOf(orders, userId));
    forall o | o in sorted ensures exists v :: v in views && v.order == o {
      var k :| 0 <= k < |sorted| && sorted[k] == o;
      assert views[k] in views;
    }
    forall v | v in views ensures v.order in sorted && v == View(v.order, items) {
      var k :| 0 <= k < |views| && views[k] == v;
    }
    views
  }

  /**
   * GET: `order_id` wins over `user_id`; an unknown order is a 404; a user's
   * orders come newest first, each with its items.
   */
  function Get(orders: seq<Order>, items: seq<OrderItem>, userId: Option<string>, orderId: Option<string>): (r: Http<OrdersReply>)
    ensures !Truthy(userId) && !Truthy(orderId) <==> r == Fail(400, "Missing user_id or order_id")
    ensures r.Fail? <==> (!Truthy(userId) && !Truthy(orderId)) || (Truthy(orderId) && orderId.value !in OrderIds(orders))
    ensures Truthy(orderId) ==> (r == Fail(404, "Order not found") <==> orderId.value !in OrderIds(orders))
    ensures Truthy(orderId) && r.Ok? ==>
              r.code == 200 && r.body.One? && r.body.view.order in orders && r.body.view.order.id == orderId.value
              && r.body.view == View(r.body.view.order, items)
    ensures !Truthy(orderId) && Truthy(userId) ==> r == Ok(200, Many(UserViews(orders, items, userId.value)))
  {
    if !Truthy(userId) && !Truthy(orderId) then Fail(400, "Missing user_id or order_id")
    else if Truthy(orderId) then
      match Lookup(orders, ById(orderId.value))
      case None =>
        assert orderId.value !in OrderIds(orders);
        Fail(404, "Order not found")
      case Some(o) => Ok(200, One(View(o, items)))
    else Ok(200, Many(UserViews(orders, items, userId.value)))
  }
}
