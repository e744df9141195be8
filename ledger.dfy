/**
 * The `orders` and `order_items` tables. Every UPDATE the payment handlers
 * issue is one `Change` applied to the rows a `Selector` picks (a row id or
 * a provider reference); the table object inserts rows, applies updates and,
 * for a ROLLBACK, puts back the rows it had when the transaction began.
 */
module Ledger {
  import opened Common
  import opened CartStore

  type OrderId = string

  /** The `status` column. */
  datatype OrderStatus = OrderPending | Processing | Confirmed | Cancelled

  /** The `payment_status` column: 'pending', 'paid', 'failed' and, for card orders, 'completed'. */
  datatype PaymentStatus = PaymentPending | Paid | PaymentFailed | PaymentCompleted

  /** One row of `orders`; absent columns (SQL NULL) are `None`. Money is in minor units. */
  datatype Order = Order(
    id: OrderId,
    userId: Option<string>,
    orderNumber: string,
    status: OrderStatus,
    total: int,
    paymentMethod: string,
    paymentStatus: PaymentStatus,
    phone: string,
    address: string,
    notes: Option<string>,
    provider: Option<string>,
    providerTxId: Option<string>,
    paidAt: Option<int>,
    updatedAt: Option<int>,
    createdAt: int)

  /** One row of `order_items`: a snapshot of the product's name and price at checkout. */
  datatype OrderItem = OrderItem(
    orderId: OrderId,
    productId: Option<ProductId>,
    name: string,
    price: int,
    quantity: int,
    subtotal: int)

  function OrderIds(orders: seq<Order>): set<OrderId> {
    set o | o in orders :: o.id
  }

  predicate DistinctIds(orders: seq<Order>) {
    forall i, j :: 0 <= i < j < |orders| ==> orders[i].id != orders[j].id
  }

  // ---------------------------------------------------------------------------
  // UPDATE statements

  /** The WHERE clause of an UPDATE: `id = $n` or `provider_tx_id = $n`. */
  datatype Selector = ById(id: OrderId) | ByTx(tx: string)

  predicate Selects(s: Selector, o: Order) {
    match s
    case ById(id) => o.id == id
    case ByTx(tx) => o.providerTxId == Some(tx)
  }

  /**
   * The SET clause of an UPDATE:
   *  - SetTx: `provider_tx_id = $1` (the adapters' initiatePayment);
   *  - MarkProvider: `provider = $1, provider_tx_id = COALESCE($2, provider_tx_id)` with `$2 = tx || null`;
   *  - StartFallback: provider, provider_tx_id, phone, payment_method 'mobile_money', payment_status 'pending';
   *  - Settle: payment_status and paid_at, and `provider = COALESCE($2, provider)` with `$2 = provider || null`
   *    (the adapters' handleCallback passes no provider, so it keeps the recorded one);
   *  - SettleOrder: payment_status, status and updated_at (the edge callback).
   */
  datatype Change =
    | SetTx(tx: string)
    | MarkProvider(name: string, txOrNull: Option<string>)
    | StartFallback(fallbackProvider: string, fallbackTx: string, fallbackPhone: string)
    | Settle(payment: PaymentStatus, declared: Option<string>, paidAt: int)
    | SettleOrder(orderPayment: PaymentStatus, orderStatus: OrderStatus, updatedAt: int)

  /** One row after the SET clause; no UPDATE touches the order's identity, owner, number, total, address or notes. */
  function Apply(c: Change, o: Order): (r: Order)
    ensures r.id == o.id && r.userId == o.userId && r.orderNumber == o.orderNumber
    ensures r.total == o.total && r.address == o.address && r.notes == o.notes && r.createdAt == o.createdAt
  {
    match c
    case SetTx(tx) => o.(providerTxId := Some(tx))
    case MarkProvider(name, tx) =>
      o.(provider := Some(name), providerTxId := if Truthy(tx) then tx else o.providerTxId)
    case StartFallback(name, tx, phone) =>
      o.(provider := Some(name), providerTxId := Some(tx), phone := phone,
         paymentMethod := "mobile_money", paymentStatus := PaymentPending)
    case Settle(payment, declared, at) =>
      o.(paymentStatus := payment, paidAt := Some(at), provider := if Truthy(declared) then declared else o.provider)
    case SettleOrder(payment, status, at) =>
      o.(paymentStatus := payment, status := status, updatedAt := Some(at))
  }

  /** `UPDATE orders SET c WHERE s`: every selected row is rewritten, every other row is left alone. */
  function Rewrite(orders: seq<Order>, s: Selector, c: Change): (r: seq<Order>)
    ensures |r| == |orders|
    ensures forall i :: 0 <= i < |orders| && !Selects(s, orders[i]) ==> r[i] == orders[i]
    ensures forall i :: 0 <= i < |orders| && Selects(s, orders[i]) ==> r[i] == Apply(c, orders[i])
    ensures OrderIds(r) == OrderIds(orders)
    ensures DistinctIds(orders) ==> DistinctIds(r)
  {
    var r := seq(|orders|, i requires 0 <= i < |orders| => if Selects(s, orders[i]) then Apply(c, orders[i]) else orders[i]);
    assert forall i :: 0 <= i < |orders| ==> r[i].id == orders[i].id;
    assert OrderIds(r) == OrderIds(orders) by {
      forall x | x in OrderIds(orders) ensures x in OrderIds(r) {
        var i :| 0 <= i < |orders| && orders[i].id == x;
        assert r[i] in r;
      }
      forall x | x in OrderIds(r) ensures x in OrderIds(orders) {
        var i :| 0 <= i < |r| && r[i].id == x;
        assert orders[i] in orders;
      }
    }
    r
  }

  /** The position of the first row the selector picks, if any. */
  function FirstMatch(orders: seq<Order>, s: Selector): (r: Option<nat>)
    ensures r.Some? ==> r.value < |orders| && Selects(s, orders[r.value])
    ensures r.Some? ==> forall j :: 0 <= j < r.value ==> !Selects(s, orders[j])
    ensures r.None? <==> forall i :: 0 <= i < |orders| ==> !Selects(s, orders[i])
  {
    if orders == [] then None
    else if Selects(s, orders[0]) then Some(0)
    else match FirstMatch(orders[1..], s)
      case None => None
      case Some(k) => Some(k + 1)
  }

  /** A `SELECT ... WHERE s LIMIT 1`: the first row the selector picks. */
  function Lookup(orders: seq<Order>, s: Selector): (r: Option<Order>)
    ensures r.Some? ==> r.value in orders && Selects(s, r.value)
    ensures r.None? <==> forall i :: 0 <= i < |orders| ==> !Selects(s, orders[i])
  {
    match FirstMatch(orders, s)
    case None => None
    case Some(k) => Some(orders[k])
  }

  /** `rows[0]` of `UPDATE ... RETURNING`: the first selected row as it reads after the update. */
  function FirstUpdated(orders: seq<Order>, s: Selector, c: Change): (r: Option<Order>)
    ensures r.None? <==> Lookup(orders, s).None?
    ensures r.Some? ==> r == Some(Apply(c, Lookup(orders, s).value))
    ensures r.Some? ==> r.value in Rewrite(orders, s, c)
  {
    match FirstMatch(orders, s)
    case None => None
    case Some(k) =>
      assert Rewrite(orders, s, c)[k] == Apply(c, orders[k]);
      Some(Apply(c, orders[k]))
  }

  // ---------------------------------------------------------------------------
  // What the settlement writes promise

  /**
   * Two settlements by the same reference compose into one: the second one's
   * payment status and time win outright, whatever the first one wrote (there
   * is no "paid is final" guard), and the provider is the last one declared.
   */
  lemma {:induction false} SettleTwice(orders: seq<Order>, tx: string,
                                       p1: PaymentStatus, d1: Option<string>, at1: int,
                                       p2: PaymentStatus, d2: Option<string>, at2: int)
    ensures Rewrite(Rewrite(orders, ByTx(tx), Settle(p1, d1, at1)), ByTx(tx), Settle(p2, d2, at2))
         == Rewrite(orders, ByTx(tx), Settle(p2, if Truthy(d2) then d2 else d1, at2))
  {
    var mid := Rewrite(orders, ByTx(tx), Settle(p1, d1, at1));
    var lhs := Rewrite(mid, ByTx(tx), Settle(p2, d2, at2));
    var rhs := Rewrite(orders, ByTx(tx), Settle(p2, if Truthy(d2) then d2 else d1, at2));
    forall i | 0 <= i < |orders| ensures lhs[i] == rhs[i] {
      assert mid[i].providerTxId == orders[i].providerTxId;
    }
  }

  /** Repeating a settlement changes nothing further. */
  lemma SettleIdempotent(orders: seq<Order>, tx: string, p: PaymentStatus, d: Option<string>, at: int)
    ensures var once := Rewrite(orders, ByTx(tx), Settle(p, d, at));
            Rewrite(once, ByTx(tx), Settle(p, d, at)) == once
  {
    SettleTwice(orders, tx, p, d, at, p, d, at);
  }

  /** A 'failed' callback after a 'paid' one leaves every row with that reference failed. */
  lemma FailedAfterPaid(orders: seq<Order>, tx: string, d1: Option<string>, at1: int, d2: Option<string>, at2: int)
    ensures var after := Rewrite(Rewrite(orders, ByTx(tx), Settle(Paid, d1, at1)), ByTx(tx), Settle(PaymentFailed, d2, at2));
            forall i :: 0 <= i < |orders| && orders[i].providerTxId == Some(tx) ==>
              after[i].paymentStatus == PaymentFailed && after[i].paidAt == Some(at2)
  {
    SettleTwice(orders, tx, Paid, d1, at1, PaymentFailed, d2, at2);
  }

  /**
   * Recording a provider: the provider is always written, the reference only
   * when a non-empty one is supplied, and rows with another id are untouched.
   */
  lemma {:induction false} MarkProviderEffect(orders: seq<Order>, id: OrderId, name: string, tx: Option<string>)
    ensures var r := Rewrite(orders, ById(id), MarkProvider(name, tx));
      && |r| == |orders|
      && (forall i :: 0 <= i < |orders| && orders[i].id == id ==>
            && r[i].provider == Some(name)
            && r[i].providerTxId == (if Truthy(tx) then tx else orders[i].providerTxId)
            && r[i].paymentStatus == orders[i].paymentStatus)
      && (forall i :: 0 <= i < |orders| && orders[i].id != id ==> r[i] == orders[i])
  {
  }

  // ---------------------------------------------------------------------------
  // The tables

  class OrderTable {
    var orders: seq<Order>
    var items: seq<OrderItem>

    /** Order ids are unique and every item belongs to an order that exists. */
    ghost predicate Valid()
      reads this
    {
      DistinctIds(orders) && forall k :: 0 <= k < |items| ==> items[k].orderId in OrderIds(orders)
    }

    constructor()
      ensures Valid() && orders == [] && items == []
    {
      orders := [];
      items := [];
    }

    /** `INSERT INTO orders ... RETURNING *` with a fresh id. */
    method InsertOrder(o: Order)
      requires Valid() && o.id !in OrderIds(orders)
      modifies this
      ensures Valid()
      ensures orders == old(orders) + [o] && items == old(items)
    {
      orders := orders + [o];
      assert forall k :: 0 <= k < |items| ==> items[k].orderId in OrderIds(orders) by {
        assert OrderIds(old(orders)) <= OrderIds(orders);
      }
    }

    /** `INSERT INTO order_items ...` for an order that exists. */
    method InsertItem(item: OrderItem)
      requires Valid() && item.orderId in OrderIds(orders)
      modifies this
      ensures Valid()
      ensures items == old(items) + [item] && orders == old(orders)
    {
      items := items + [item];
    }

    /**
     * The loop of `INSERT INTO order_items` statements, one per new item, in
     * order; when `fault` is k in 1..n the k-th INSERT throws and the loop stops
     * there, with the items before it written.
     */
    method InsertAll(newItems: seq<OrderItem>, fault: Option<nat>) returns (ok: bool)
      requires Valid()
      requires forall k :: 0 <= k < |newItems| ==> newItems[k].orderId in OrderIds(orders)
      modifies this
      ensures Valid() && orders == old(orders)
      ensures ok <==> !(fault.Some? && 1 <= fault.value <= |newItems|)
      ensures ok ==> items == old(items) + newItems
      ensures !ok ==> items == old(items) + newItems[..fault.value - 1]
    {
      var i := 0;
      while i < |newItems|
        invariant 0 <= i <= |newItems|
        invariant Valid() && orders == old(orders)
        invariant items == old(items) + newItems[..i]
        invariant !(fault.Some? && 1 <= fault.value <= i)
      {
        if fault == Some(i + 1) {
          return false;
        }
        InsertItem(newItems[i]);
        assert newItems[..i + 1] == newItems[..i] + [newItems[i]];
        i := i + 1;
      }
      assert newItems[..i] == newItems;
      ok := true;
    }

    /**
     * One transaction inserting an order and then its items. When `fault`
     * names one of its statements (0 the order, k the k-th item) that
     * statement throws and ROLLBACK puts both tables back as they were.
     */
    method InsertOrderWithItems(o: Order, newItems: seq<OrderItem>, fault: Option<nat>) returns (ok: bool)
      requires Valid() && o.id !in OrderIds(orders)
      requires forall k :: 0 <= k < |newItems| ==> newItems[k].orderId == o.id
      modifies this
      ensures Valid()
      ensures ok <==> !(fault.Some? && fault.value <= |newItems|)
      ensures ok ==> orders == old(orders) + [o] && items == old(items) + newItems
      ensures !ok ==> orders == old(orders) && items == old(items)
    {
      var savedOrders, savedItems := orders, items;
      if fault == Some(0) {
        Rollback(savedOrders, savedItems);
        return false;
      }
      InsertOrder(o);
      assert orders[|savedOrders|] == o;
      assert o.id in OrderIds(orders);
      ok := InsertAll(newItems, fault);
      if !ok {
        Rollback(savedOrders, savedItems);
      }
    }

    /** ROLLBACK: both tables go back to the rows they held at BEGIN. */
    method Rollback(savedOrders: seq<Order>, savedItems: seq<OrderItem>)
      requires DistinctIds(savedOrders)
      requires forall k :: 0 <= k < |savedItems| ==> savedItems[k].orderId in OrderIds(savedOrders)
      modifies this
      ensures Valid()
      ensures orders == savedOrders && items == savedItems
    {
      orders := savedOrders;
      items := savedItems;
    }

    /** `UPDATE orders SET c WHERE s RETURNING ...`; answers the first updated row, if any. */
    method Update(s: Selector, c: Change) returns (first: Option<Order>)
      requires Valid()
      modifies this
      ensures Valid()
      ensures orders == Rewrite(old(orders), s, c) && items == old(items)
      ensures first == FirstUpdated(old(orders), s, c)
    {
      first := FirstUpdated(orders, s, c);
      orders := Rewrite(orders, s, c);
    }
  }
}
