/**
 * Fulfilment of a card checkout: once the gateway session reports it paid,
 * one transaction inserts an order (number `STRIPE-<session id>`, already
 * processing and paid) and one item per session line.
 */
module Fulfill {
  import opened Common
  import opened Ledger

  /** The session metadata the checkout stored. */
  datatype Metadata = Metadata(phone: Option<string>, address: Option<string>, notes: Option<string>)

  /** A session line item; every field the gateway may omit is optional. */
  datatype SessionLine = SessionLine(
    description: Option<string>,
    unitAmount: Option<int>,
    productName: Option<string>,
    quantity: Option<int>)

  /** The retrieved checkout session, with its line items expanded. Amounts are in minor units. */
  datatype Session = Session(
    id: string,
    paymentStatus: string,
    amountTotal: Option<int>,
    metadata: Option<Metadata>,
    lines: Option<seq<SessionLine>>)

  function MetaPhone(s: Session): string {
    if s.metadata.Some? then OrElse(s.metadata.value.phone, "") else ""
  }

  function MetaAddress(s: Session): string {
    if s.metadata.Some? then OrElse(s.metadata.value.address, "") else ""
  }

  function MetaNotes(s: Session): Option<string> {
    if s.metadata.Some? && Truthy(s.metadata.value.notes) then s.metadata.value.notes else None
  }

  /** The order row: processing, paid by card, total from the session (0 when absent). */
  function CardOrder(s: Session, userId: Option<string>, id: OrderId, now: int): (o: Order)
    ensures o.id == id && o.orderNumber == "STRIPE-" + s.id
    ensures o.status == Processing && o.paymentMethod == "card" && o.paymentStatus == PaymentCompleted
    ensures o.total == (if s.amountTotal.Some? then s.amountTotal.value else 0)
    ensures o.userId.Some? <==> Truthy(userId)
    ensures Truthy(userId) ==> o.userId == userId
    ensures o.phone == MetaPhone(s) && o.address == MetaAddress(s) && o.notes == MetaNotes(s)
  {
    Order(id, if Truthy(userId) then userId else None, "STRIPE-" + s.id, Processing, IfNull(s.amountTotal, 0),
          "card", PaymentCompleted, MetaPhone(s), MetaAddress(s), MetaNotes(s), None, None, None, None, now)
  }

  /** The item name falls back from the line's description to its product's name to "Item". */
  function ItemName(li: SessionLine): (name: string)
    ensures name != ""
    ensures Truthy(li.description) ==> name == li.description.value
    ensures !Truthy(li.description) && Truthy(li.productName) ==> name == li.productName.value
    ensures !Truthy(li.description) && !Truthy(li.productName) ==> name == "Item"
  {
    OrElse(li.description, OrElse(li.productName, "Item"))
  }

  /** The item a session line becomes: no product reference, a quantity that is never 0, price times quantity. */
  function CardItem(orderId: OrderId, li: SessionLine): (it: OrderItem)
    ensures it.orderId == orderId && it.productId.None? && it.name == ItemName(li)
    ensures it.price == (if li.unitAmount.Some? then li.unitAmount.value else 0)
    ensures it.quantity != 0 && (li.quantity.Some? && li.quantity.value != 0 ==> it.quantity == li.quantity.value)
    ensures li.quantity.None? || li.quantity.value == 0 ==> it.quantity == 1
    ensures it.subtotal == it.price * it.quantity
  {
    var price := IfNull(li.unitAmount, 0);
    var quantity := NumOr(li.quantity, 1);
    OrderItem(orderId, None, ItemName(li), price, quantity, price * quantity)
  }

  /** One item per session line, in order; a session without line items gives none. */
  function CardItems(orderId: OrderId, s: Session): (r: seq<OrderItem>)
    ensures s.lines.None? ==> r == []
    ensures s.lines.Some? ==> |r| == |s.lines.value|
    ensures s.lines.Some? ==> forall k :: 0 <= k < |r| ==> r[k] == CardItem(orderId, s.lines.value[k])
  {
    var lines := if s.lines.Some? then s.lines.value else [];
    seq(|lines|, k requires 0 <= k < |lines| => CardItem(orderId, lines[k]))
  }

  datatype Fulfilled = Fulfilled(ok: bool, orderId: OrderId)

  /**
   * POST: a missing session id and an unpaid session are refused with nothing
   * written; otherwise the order and its items are written together, or (the
   * statement numbered `fault` threw: 0 is the order INSERT, k the k-th item
   * INSERT) not at all.
   */
  method Fulfil(ledger: OrderTable, sessionId: Option<string>, userId: Option<string>, session: Session,
                orderId: OrderId, now: int, fault: Option<nat>) returns (r: Http<Fulfilled>)
    requires ledger.Valid() && orderId !in OrderIds(ledger.orders)
    modifies ledger
    ensures ledger.Valid()
    ensures !Truthy(sessionId) ==>
              r == Fail(400, "session_id required") && ledger.orders == old(ledger.orders) && ledger.items == old(ledger.items)
    ensures Truthy(sessionId) && session.paymentStatus != "paid" ==>
              r == Fail(400, "Payment not completed") && ledger.orders == old(ledger.orders) && ledger.items == old(ledger.items)
    ensures Truthy(sessionId) && session.paymentStatus == "paid" && fault.Some? && fault.value <= |CardItems(orderId, session)| ==>
              r == Fail(500, DbError) && ledger.orders == old(ledger.orders) && ledger.items == old(ledger.items)
    ensures Truthy(sessionId) && session.paymentStatus == "paid" && !(fault.Some? && fault.value <= |CardItems(orderId, session)|) ==>
              && r == Ok(200, Fulfilled(true, orderId))
              && ledger.orders == old(ledger.orders) + [CardOrder(session, userId, orderId, now)]
              && ledger.items == old(ledger.items) + CardItems(orderId, session)
  {
    if !Truthy(sessionId) {
      return Fail(400, "session_id required");
    }
    if session.paymentStatus != "paid" {
      return Fail(400, "Payment not completed");
    }
    var ok := ledger.InsertOrderWithItems(CardOrder(session, userId, orderId, now), CardItems(orderId, session), fault);
    if !ok {
      return Fail(500, DbError);
    }
    r := Ok(200, Fulfilled(true, orderId));
  }
}
