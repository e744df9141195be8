/**
 * The card-gateway requests: the payment intent, whose amount is computed
 * on the server from current catalog prices, and the hosted checkout
 * session, whose line items come from the client's cart. Amounts are
 * integer minor units (cents), so scaling a price by 100 and rounding is
 * exact and is not written out.
 */
module Card {
  import opened Common
  import opened Ledger
  import opened Products
  import opened Fulfill

  // ---------------------------------------------------------------------------
  // Payment intent

  /** An item of the request: a product id and an optional quantity. */
  datatype IntentItem = IntentItem(productId: string, quantity: Option<int>)

  /** A row of the price query: product id and price in minor units. */
  datatype PriceRow = PriceRow(id: string, price: int)

  /** The price each product id maps to; a later row for the same id overwrites an earlier one. */
  function PriceMap(rows: seq<PriceRow>): (m: map<string, int>)
    ensures forall id :: id in m <==> exists r :: r in rows && r.id == id
  {
    if rows == [] then map[]
    else
      var m := PriceMap(rows[..|rows| - 1]);
      assert forall r :: r in rows <==> r in rows[..|rows| - 1] || r == rows[|rows| - 1];
      m[rows[|rows| - 1].id := rows[|rows| - 1].price]
  }

  /** The price in the map is that of the last row carrying the id. */
  lemma {:induction false} PriceMapLastRow(rows: seq<PriceRow>, k: nat)
    requires k < |rows|
    requires forall j :: k < j < |rows| ==> rows[j].id != rows[k].id
    ensures PriceMap(rows)[rows[k].id] == rows[k].price
  {
    if k < |rows| - 1 {
      PriceMapLastRow(rows[..|rows| - 1], k);
    }
  }

  /** The first loop: fills the price map row by row. */
  method BuildPriceMap(rows: seq<PriceRow>) returns (m: map<string, int>)
    ensures m == PriceMap(rows)
  {
    m := map[];
    for i := 0 to |rows|
      invariant m == PriceMap(rows[..i])
    {
      assert rows[..i + 1][..i] == rows[..i];
      m := m[rows[i].id := rows[i].price];
    }
    assert rows[..|rows|] == rows;
  }

  /** `Number(it.quantity || 1)`: an absent or zero quantity counts as one. */
  function Quantity(it: IntentItem): (q: int)
    ensures q != 0
    ensures it.quantity.Some? && it.quantity.value != 0 ==> q == it.quantity.value
    ensures it.quantity.None? || it.quantity.value == 0 ==> q == 1
  {
    NumOr(it.quantity, 1)
  }

  predicate Priced(items: seq<IntentItem>, prices: map<string, int>) {
    forall k :: 0 <= k < |items| ==> items[k].productId in prices
  }

  /** The sum of price times quantity over the items. */
  function AmountOf(items: seq<IntentItem>, prices: map<string, int>): int
    requires Priced(items, prices)
  {
    if items == [] then 0
    else
      var last := items[|items| - 1];
      AmountOf(items[..|items| - 1], prices) + prices[last.productId] * Quantity(last)
  }

  /**
   * The second loop: adds up price times quantity and stops at the first
   * item whose product has no price.
   */
  method Amount(items: seq<IntentItem>, prices: map<string, int>) returns (r: Option<int>)
    ensures r.None? <==> !Priced(items, prices)
    ensures r.Some? ==> r.value == AmountOf(items, prices)
  {
    var amount := 0;
    for i := 0 to |items|
      invariant Priced(items[..i], prices)
      invariant amount == AmountOf(items[..i], prices)
    {
      var p := items[i].productId;
      if p !in prices {
        return None;
      }
      assert items[..i + 1][..i] == items[..i];
      amount := amount + prices[p] * Quantity(items[i]);
    }
    assert items[..|items|] == items;
    r := Some(amount);
  }

  /** The intent request the server sends the gateway. */
  datatype IntentCall = IntentCall(amount: int, currency: string, metadata: map<string, string>)

  /** The request body; any field may be missing. */
  datatype IntentRequest = IntentRequest(
    items: Option<seq<IntentItem>>,
    currency: Option<string>,
    metadata: Option<map<string, string>>)

  /** The price query: one placeholder per item, the product ids as parameters in item order. */
  function PriceQuery(items: seq<IntentItem>): (q: SqlQuery)
    ensures |q.params| == |items|
    ensures forall k :: 0 <= k < |items| ==> q.params[k] == items[k].productId
  {
    var ids := seq(|items|, k requires 0 <= k < |items| => items[k].productId);
    SqlQuery("SELECT id, price FROM products WHERE id IN (" + Placeholders(|ids|) + ")", ids)
  }

  /**
   * POST create-payment-intent. `rows` is what the price query returns.
   * Missing items and an unknown product are refused; otherwise the amount is
   * computed from the catalog prices alone, whatever the client claims.
   */
  method CreatePaymentIntent(req: IntentRequest, rows: seq<PriceRow>) returns (r: Http<IntentCall>)
    ensures req.items.None? || req.items.value == [] <==> r == Fail(400, "Missing items")
    ensures req.items.Some? && req.items.value != [] ==>
              (r == Fail(400, "Invalid product in items") <==> !Priced(req.items.value, PriceMap(rows)))
    ensures r.Fail? <==> req.items.None? || req.items.value == [] || !Priced(req.items.value, PriceMap(rows))
    ensures r.Ok? ==>
              && r.code == 200
              && r.body.amount == AmountOf(req.items.value, PriceMap(rows))
              && r.body.currency == (if req.currency.Some? then req.currency.value else "usd")
              && r.body.metadata == (if req.metadata.Some? then req.metadata.value else map[])
  {
    if req.items.None? || req.items.value == [] {
      return Fail(400, "Missing items");
    }
    var prices := BuildPriceMap(rows);
    var amount := Amount(req.items.value, prices);
    if amount.None? {
      return Fail(400, "Invalid product in items");
    }
    var currency := if req.currency.Some? then req.currency.value else "usd";
    var metadata := if req.metadata.Some? then req.metadata.value else map[];
    r := Ok(200, IntentCall(amount.value, currency, metadata));
  }

  /** Raising an item's quantity by one adds that product's price to the amount. */
  lemma {:induction false} AmountGrowsByPrice(items: seq<IntentItem>, prices: map<string, int>, k: nat)
    requires Priced(items, prices) && k < |items| && items[k].quantity.Some? && items[k].quantity.value > 0
    ensures var more := items[k := items[k].(quantity := Some(items[k].quantity.value + 1))];
      Priced(more, prices) && AmountOf(more, prices) == AmountOf(items, prices) + prices[items[k].productId]
  {
    var more := items[k := items[k].(quantity := Some(items[k].quantity.value + 1))];
    assert Priced(more, prices);
    if k < |items| - 1 {
      assert more[..|more| - 1] == items[..|items| - 1][k := more[k]];
      AmountGrowsByPrice(items[..|items| - 1], prices, k);
    } else {
      assert more[..|more| - 1] == items[..|items| - 1];
    }
  }

  // ---------------------------------------------------------------------------
  // Checkout session

  /** An item as the client sends it: name, unit price in minor units, optional quantity. */
  datatype CartItem = CartItem(name: Option<string>, price: int, quantity: Option<int>)

  datatype LineItem = LineItem(currency: string, name: Option<string>, unitAmount: int, quantity: int)

  function LineItemOf(it: CartItem): (li: LineItem)
    ensures li.currency == "usd" && li.name == it.name && li.unitAmount == it.price
    ensures li.quantity != 0 && (it.quantity.Some? && it.quantity.value != 0 ==> li.quantity == it.quantity.value)
    ensures it.quantity.None? || it.quantity.value == 0 ==> li.quantity == 1
  {
    LineItem("usd", it.name, it.price, NumOr(it.quantity, 1))
  }

  /** The environment the base URL is read from. */
  datatype UrlEnv = UrlEnv(nextPublicBaseUrl: Option<string>, baseUrl: Option<string>)

  function BaseUrl(env: UrlEnv): (url: string)
    ensures url != ""
    ensures Truthy(env.nextPublicBaseUrl) ==> url == env.nextPublicBaseUrl.value
    ensures !Truthy(env.nextPublicBaseUrl) && Truthy(env.baseUrl) ==> url == env.baseUrl.value
    ensures !Truthy(env.nextPublicBaseUrl) && !Truthy(env.baseUrl) ==> url == "http://localhost:5173"
  {
    OrElse(env.nextPublicBaseUrl, OrElse(env.baseUrl, "http://localhost:5173"))
  }

  /** How a template literal renders a possibly missing user id. */
  function UserIdText(userId: Option<string>): string {
    if userId.Some? then userId.value else "undefined"
  }

  const SessionPlaceholder := "{CHECKOUT_SESSION_ID}"

  datatype SessionCall = SessionCall(
    lineItems: seq<LineItem>,
    successUrl: string,
    cancelUrl: string,
    metadata: map<string, string>)

  /**
   * The success page's address: the base URL, the payment-success path with
   * the gateway's session-id placeholder, and the user id last.
   */
  function SuccessUrl(base: string, userId: Option<string>): (url: string)
    ensures StartsWith(url, base)
    ensures Contains(url, SessionPlaceholder)
    ensures |url| >= |UserIdText(userId)| && url[|url| - |UserIdText(userId)|..] == UserIdText(userId)
  {
    var mid := "/payment-success?session_id=" + SessionPlaceholder + "&user_id=";
    var tail := mid + UserIdText(userId);
    StartsWithPrefix(base, tail);
    assert mid == "/payment-success?session_id=" + (SessionPlaceholder + "&user_id=");
    ContainsHead(SessionPlaceholder, "&user_id=" + UserIdText(userId));
    assert tail == "/payment-success?session_id=" + (SessionPlaceholder + ("&user_id=" + UserIdText(userId)));
    ContainsTail("/payment-success?session_id=", SessionPlaceholder + ("&user_id=" + UserIdText(userId)), SessionPlaceholder);
    ContainsTail(base, tail, SessionPlaceholder);
    var url := base + tail;
    assert url[|url| - |UserIdText(userId)|..] == UserIdText(userId);
    url
  }

  /** `{ user_id, ...metadata }`: the body's metadata wins over the user id it might repeat. */
  function SessionMetadata(userId: Option<string>, metadata: Option<map<string, string>>): (m: map<string, string>)
    ensures metadata.Some? ==> forall k :: k in metadata.value ==> k in m && m[k] == metadata.value[k]
    ensures "user_id" in m <==> userId.Some? || (metadata.Some? && "user_id" in metadata.value)
    ensures userId.Some? && (metadata.None? || "user_id" !in metadata.value) ==> m["user_id"] == userId.value
    ensures forall k :: k in m ==> k == "user_id" || (metadata.Some? && k in metadata.value)
  {
    (if userId.Some? then map["user_id" := userId.value] else map[])
    + (if metadata.Some? then metadata.value else map[])
  }

  /**
   * POST create-checkout-session: missing items are refused; otherwise one
   * line item per item in order, the success and cancel addresses under the
   * base URL, and the metadata.
   */
  function CreateCheckoutSession(items: Option<seq<CartItem>>, userId: Option<string>,
                                 metadata: Option<map<string, string>>, env: UrlEnv): (r: Http<SessionCall>)
    ensures items.None? || items.value == [] <==> r == Fail(400, "No items provided")
    ensures r.Fail? <==> items.None? || items.value == []
    ensures r.Ok? ==> r.code == 200 && |r.body.lineItems| == |items.value|
    ensures r.Ok? ==> forall k :: 0 <= k < |items.value| ==> r.body.lineItems[k] == LineItemOf(items.value[k])
    ensures r.Ok? ==> r.body.successUrl == SuccessUrl(BaseUrl(env), userId)
    ensures r.Ok? ==> r.body.cancelUrl == BaseUrl(env) + "/checkout"
    ensures r.Ok? ==> r.body.metadata == SessionMetadata(userId, metadata)
  {
    if items.None? || items.value == [] then Fail(400, "No items provided")
    else
      var its := items.value;
      var lineItems := seq(|its|, k requires 0 <= k < |its| => LineItemOf(its[k]));
      var base := BaseUrl(env);
      Ok(200, SessionCall(lineItems, SuccessUrl(base, userId), base + "/checkout", SessionMetadata(userId, metadata)))
  }

  // ---------------------------------------------------------------------------
  // From checkout to fulfilment

  /** The line of the paid session the gateway reports for a line item it was given. */
  function Reported(li: LineItem): SessionLine {
    SessionLine(li.name, Some(li.unitAmount), li.name, Some(li.quantity))
  }

  /**
   * A session the gateway reports back with the line items it was given
   * fulfils into one order item per cart item, in order, with the cart item's
   * price, its quantity (one when absent) and the name it was sold under
   * ("Item" when it had none).
   */
  lemma {:induction false} CheckoutFulfilsCart(items: seq<CartItem>, userId: Option<string>,
                                               metadata: Option<map<string, string>>, env: UrlEnv,
                                               s: Session, orderId: OrderId)
    requires items != []
    requires var call := CreateCheckoutSession(Some(items), userId, metadata, env);
      s.lines == Some(seq(|call.body.lineItems|, k requires 0 <= k < |call.body.lineItems| => Reported(call.body.lineItems[k])))
    ensures |CardItems(orderId, s)| == |items|
    ensures forall k :: 0 <= k < |items| ==>
              var it := CardItems(orderId, s)[k];
              && it.price == items[k].price
              && it.quantity == NumOr(items[k].quantity, 1)
              && it.subtotal == items[k].price * NumOr(items[k].quantity, 1)
              && it.name == (if Truthy(items[k].name) then items[k].name.value else "Item")
  {
    var call := CreateCheckoutSession(Some(items), userId, metadata, env);
    forall k | 0 <= k < |items|
      ensures var it := CardItems(orderId, s)[k];
        && it.price == items[k].price
        && it.quantity == NumOr(items[k].quantity, 1)
        && it.subtotal == items[k].price * NumOr(items[k].quantity, 1)
        && it.name == (if Truthy(items[k].name) then items[k].name.value else "Item")
    {
      var li := call.body.lineItems[k];
      assert li == LineItemOf(items[k]);
      assert s.lines.value[k] == Reported(li);
      assert CardItems(orderId, s)[k] == CardItem(orderId, Reported(li));
    }
  }
}
