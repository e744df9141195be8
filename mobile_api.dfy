/**
 * The mobile-money endpoints: initiate (start paying an order through an
 * adapter or the local fallback), callback (settle the orders carrying a
 * provider reference) and status (read an order's payment state).
 */
module MobileApi {
  import opened Common
  import opened Ledger
  import opened Adapters

  /** The provider names the request schemas admit. */
  const Providers: seq<string> := ["tigo_pesa", "airtel_money", "vodacom", "halo_pesa"]

  // ---------------------------------------------------------------------------
  // Payer instructions of the fallback path

  /**
   * The text around the amount in the instructions the fallback shows for a
   * provider: the lead before the amount and the rest after it.
   */
  function InstructionParts(provider: string): (parts: (string, string))
  {
    if provider == "tigo_pesa" then
      ("Send TZS ", " to Tigo Pesa business number or follow provider prompt.")
    else if provider == "airtel_money" then
      ("Send TZS ", " via Airtel Money to the merchant number and include the order reference.")
    else if provider == "vodacom" then
      ("Use M-Pesa/Vodacom USSD or app to pay TZS ", " to the merchant pay number.")
    else if provider == "halo_pesa" then
      ("Use HaloPesa to transfer TZS ", " to the merchant number.")
    else ("Follow provider instructions to pay TZS ", ".")
  }

  /**
   * The instructions the fallback shows for a provider, with the amount
   * written in: every text, the generic one included, names the amount, and
   * a provider outside the list gets the generic text.
   */
  function ProviderInstructions(provider: string, amount: int): (r: string)
    ensures Contains(r, IntToString(amount))
    ensures provider !in ["tigo_pesa", "airtel_money", "vodacom", "halo_pesa"] ==>
              r == "Follow provider instructions to pay TZS " + IntToString(amount) + "."
  {
    var amt := IntToString(amount);
    var parts := InstructionParts(provider);
    ContainsHead(amt, parts.1);
    ContainsTail(parts.0, amt + parts.1, amt);
    parts.0 + (amt + parts.1)
  }

  /** How long each text is, leaving out the amount: no two providers' texts agree. */
  lemma PartsLength(provider: string)
    ensures var (lead, rest) := InstructionParts(provider);
      |lead| + |rest| == (if provider == "tigo_pesa" then 65
                          else if provider == "airtel_money" then 82
                          else if provider == "vodacom" then 70
                          else if provider == "halo_pesa" then 53
                          else 41)
  {
    if provider == "tigo_pesa" {
      assert |"Send TZS "| == 9;
    } else if provider == "airtel_money" {
      assert |"Send TZS "| == 9;
    } else if provider == "vodacom" {
      assert |" to the merchant pay number."| == 28;
    } else if provider == "halo_pesa" {
      assert |" to the merchant number."| == 24;
    } else {
      assert |"."| == 1;
    }
  }

  /** Each of the four providers gets its own text, and none of them is the generic one. */
  lemma {:induction false} InstructionsDistinct(p1: string, p2: string, amount: int)
    requires p1 in Providers && p1 != p2
    ensures ProviderInstructions(p1, amount) != ProviderInstructions(p2, amount)
  {
    PartsLength(p1);
    PartsLength(p2);
    assert |ProviderInstructions(p1, amount)| != |ProviderInstructions(p2, amount)|;
  }

  // ---------------------------------------------------------------------------
  // initiate

  datatype InitiateRequest = InitiateRequest(orderId: OrderId, provider: string, phone: Option<string>)

  /** The schema: a provider from the list and a phone number. */
  predicate InitiateAccepted(req: InitiateRequest) {
    req.provider in Providers && req.phone.Some?
  }

  /** The environment each adapter reads its settings from. */
  datatype AdapterEnvs = AdapterEnvs(tigo: Env, halotel: Env, vodacom: Env)

  function ConfigFor(m: Module, envs: AdapterEnvs): Config
    requires IsAdapter(m)
  {
    match m
    case TigoPesa => ConfigOf(m, envs.tigo)
    case Halotel => ConfigOf(m, envs.halotel)
    case Vodacom => ConfigOf(m, envs.vodacom)
  }

  /** The adapter `getAdapter(name)` yields when it can start a payment. */
  function InitiatingAdapter(name: string): (r: Option<Module>)
    ensures r.Some? ==> IsAdapter(r.value) && GetAdapter(name) == r
    ensures r.None? ==> GetAdapter(name).None? || GetAdapter(name) == Some(Registry)
  {
    match GetAdapter(name)
    case Some(m) => if IsAdapter(m) then Some(m) else None
    case None => None
  }

  datatype Started = Started(orderId: OrderId, provider: string, txId: string, instructions: string)

  /**
   * POST initiate. An unknown order is a 404 and a paid one a 400, with
   * nothing written. With an adapter, the adapter records its reference and
   * then the provider is marked on the order (payment status untouched);
   * without one, the fallback writes provider, the local reference, phone,
   * 'mobile_money' and 'pending'. `localRef` is the locally generated
   * reference, `reply` what a provider API call would give back.
   */
  method Initiate(ledger: OrderTable, envs: AdapterEnvs, req: InitiateRequest, localRef: string, reply: Reply)
    returns (r: Http<Started>)
    requires ledger.Valid() && localRef != ""
    modifies ledger
    ensures ledger.Valid() && ledger.items == old(ledger.items)
    ensures !InitiateAccepted(req) ==> r == Fail(500, InvalidBody) && ledger.orders == old(ledger.orders)
    ensures InitiateAccepted(req) && Lookup(old(ledger.orders), ById(req.orderId)).None? ==>
              r == Fail(404, "Order not found") && ledger.orders == old(ledger.orders)
    ensures InitiateAccepted(req) && Lookup(old(ledger.orders), ById(req.orderId)).Some?
            && Lookup(old(ledger.orders), ById(req.orderId)).value.paymentStatus == Paid ==>
              r == Fail(400, "Order already paid") && ledger.orders == old(ledger.orders)
    ensures InitiateAccepted(req) && Lookup(old(ledger.orders), ById(req.orderId)).Some?
            && Lookup(old(ledger.orders), ById(req.orderId)).value.paymentStatus != Paid
            && InitiatingAdapter(req.provider).Some? ==>
              var m := InitiatingAdapter(req.provider).value;
              var order := Lookup(old(ledger.orders), ById(req.orderId)).value;
              var out := Outcome(m, ConfigFor(m, envs), order.total, req.phone.value, localRef, reply);
              && r == Ok(200, Started(req.orderId, req.provider, out.txId, out.instructions))
              && ledger.orders == Rewrite(Rewrite(old(ledger.orders), ById(req.orderId), SetTx(out.txId)),
                                          ById(req.orderId), MarkProvider(req.provider, Some(out.txId)))
    ensures InitiateAccepted(req) && Lookup(old(ledger.orders), ById(req.orderId)).Some?
            && Lookup(old(ledger.orders), ById(req.orderId)).value.paymentStatus != Paid
            && InitiatingAdapter(req.provider).None? ==>
              var order := Lookup(old(ledger.orders), ById(req.orderId)).value;
              && r == Ok(200, Started(req.orderId, req.provider, localRef, ProviderInstructions(req.provider, order.total)))
              && ledger.orders == Rewrite(old(ledger.orders), ById(req.orderId),
                                          StartFallback(req.provider, localRef, req.phone.value))
  {
    if !InitiateAccepted(req) {
      return Fail(500, InvalidBody);
    }
    var found := Lookup(ledger.orders, ById(req.orderId));
    if found.None? {
      return Fail(404, "Order not found");
    }
    var order := found.value;
    if order.paymentStatus == Paid {
      return Fail(400, "Order already paid");
    }
    var adapter := InitiatingAdapter(req.provider);
    if adapter.Some? {
      var m := adapter.value;
      var out, _ := Adapters.Initiate(ledger, m, ConfigFor(m, envs), order, req.phone.value, localRef, reply);
      var _ := ledger.Update(ById(req.orderId), MarkProvider(req.provider, Some(out.txId)));
      return Ok(200, Started(req.orderId, req.provider, out.txId, out.instructions));
    }
    var _ := ledger.Update(ById(req.orderId), StartFallback(req.provider, localRef, req.phone.value));
    r := Ok(200, Started(req.orderId, req.provider, localRef, ProviderInstructions(req.provider, order.total)));
  }

  /**
   * On the adapter path the order ends with the provider and the adapter's
   * reference, and nothing else about it (its payment status in particular)
   * changes; no other order is touched.
   */
  lemma {:induction false} AdapterPathRecords(orders: seq<Order>, id: OrderId, provider: string, tx: string)
    requires tx != ""
    ensures var r := Rewrite(Rewrite(orders, ById(id), SetTx(tx)), ById(id), MarkProvider(provider, Some(tx)));
      && |r| == |orders|
      && (forall i :: 0 <= i < |orders| && orders[i].id == id ==>
            r[i] == orders[i].(provider := Some(provider), providerTxId := Some(tx)))
      && (forall i :: 0 <= i < |orders| && orders[i].id != id ==> r[i] == orders[i])
  {
    var mid := Rewrite(orders, ById(id), SetTx(tx));
    assert forall i :: 0 <= i < |orders| ==> mid[i].id == orders[i].id;
  }

  /** After either path, the reference handed to the payer finds an order again. */
  lemma InitiatedReferenceResolves(orders: seq<Order>, id: OrderId, c: Change, tx: string)
    requires id in OrderIds(orders)
    requires (c.SetTx? && c.tx == tx) || (c.StartFallback? && c.fallbackTx == tx)
             || (c.MarkProvider? && c.txOrNull == Some(tx) && tx != "")
    ensures Lookup(Rewrite(orders, ById(id), c), ByTx(tx)).Some?
  {
    var i :| 0 <= i < |orders| && orders[i].id == id;
    assert Selects(ByTx(tx), Rewrite(orders, ById(id), c)[i]);
  }

  // ---------------------------------------------------------------------------
  // callback

  datatype CallbackRequest = CallbackRequest(txId: string, status: string, provider: Option<string>)

  /** The schema: status is 'success' or 'failed'; a declared provider is one from the list. */
  predicate CallbackAccepted(req: CallbackRequest) {
    req.status in ["success", "failed"] && (req.provider.None? || req.provider.value in Providers)
  }

  /**
   * The adapter a callback is routed to: by the declared provider, else by the
   * one recorded on the order; a NULL or unknown name, or the registry, means none.
   */
  function CallbackAdapter(req: CallbackRequest, order: Order): (r: Option<Module>)
    ensures r.Some? ==> IsAdapter(r.value)
    ensures req.provider.Some? ==> r == InitiatingAdapter(req.provider.value)
    ensures req.provider.None? && order.provider.None? ==> r.None?
  {
    var name := if req.provider.Some? then req.provider else order.provider;
    if name.None? then None else InitiatingAdapter(name.value)
  }

  datatype CallbackReply =
    | Handled(row: Option<OrderId>)
    | Reconciled(id: OrderId, payment: PaymentStatus)

  /**
   * POST callback. An unknown reference is a 404 with nothing written.
   * Otherwise every order carrying the reference is settled, whatever its
   * current payment status: by the adapter (called without headers, so no
   * signature is checked), or by the fallback, which also records the
   * declared provider when there is one.
   */
  method Callback(ledger: OrderTable, envs: AdapterEnvs, req: CallbackRequest, now: int) returns (r: Http<CallbackReply>)
    requires ledger.Valid()
    modifies ledger
    ensures ledger.Valid() && ledger.items == old(ledger.items)
    ensures !CallbackAccepted(req) ==> r == Fail(500, InvalidBody) && ledger.orders == old(ledger.orders)
    ensures CallbackAccepted(req) && Lookup(old(ledger.orders), ByTx(req.txId)).None? ==>
              r == Fail(404, "Transaction not found") && ledger.orders == old(ledger.orders)
    ensures CallbackAccepted(req) && Lookup(old(ledger.orders), ByTx(req.txId)).Some?
            && CallbackAdapter(req, Lookup(old(ledger.orders), ByTx(req.txId)).value).Some? ==>
              && r == Ok(200, Handled(Some(Lookup(old(ledger.orders), ByTx(req.txId)).value.id)))
              && ledger.orders == Rewrite(old(ledger.orders), ByTx(req.txId), Settle(SettlementFor(req.status), None, now))
    ensures CallbackAccepted(req) && Lookup(old(ledger.orders), ByTx(req.txId)).Some?
            && CallbackAdapter(req, Lookup(old(ledger.orders), ByTx(req.txId)).value).None? ==>
              && r == Ok(200, Reconciled(Lookup(old(ledger.orders), ByTx(req.txId)).value.id, SettlementFor(req.status)))
              && ledger.orders == Rewrite(old(ledger.orders), ByTx(req.txId), Settle(SettlementFor(req.status), req.provider, now))
  {
    if !CallbackAccepted(req) {
      return Fail(500, InvalidBody);
    }
    var found := Lookup(ledger.orders, ByTx(req.txId));
    if found.None? {
      return Fail(404, "Transaction not found");
    }
    var adapter := CallbackAdapter(req, found.value);
    if adapter.Some? {
      var m := adapter.value;
      var row, _ := HandleCallback(ledger, m, ConfigFor(m, envs), req.txId, req.status, None, now);
      return Ok(200, Handled(row));
    }
    var first := ledger.Update(ByTx(req.txId), Settle(SettlementFor(req.status), req.provider, now));
    r := Ok(200, Reconciled(first.value.id, first.value.paymentStatus));
  }

  /**
   * What the fallback settlement does to each order: those carrying the
   * reference get the mapped status and a payment time, and keep their
   * recorded provider unless one is declared; the others are untouched.
   */
  lemma FallbackSettlement(orders: seq<Order>, req: CallbackRequest, now: int)
    ensures var r := Rewrite(orders, ByTx(req.txId), Settle(SettlementFor(req.status), req.provider, now));
      forall i :: 0 <= i < |orders| ==>
        if orders[i].providerTxId == Some(req.txId) then
          && (r[i].paymentStatus == Paid <==> req.status == "success")
          && r[i].paidAt == Some(now)
          && r[i].provider == (if Truthy(req.provider) then req.provider else orders[i].provider)
        else r[i] == orders[i]
  {
  }

  // ---------------------------------------------------------------------------
  // status

  datatype StatusView = StatusView(id: OrderId, payment: PaymentStatus, provider: Option<string>, txId: Option<string>)

  /** The status reply shows the order's id, payment status, provider and reference, and nothing else of it. */
  function ViewOf(o: Order): (v: StatusView)
    ensures v.id == o.id && v.payment == o.paymentStatus && v.provider == o.provider && v.txId == o.providerTxId
  {
    StatusView(o.id, o.paymentStatus, o.provider, o.providerTxId)
  }

  /**
   * GET status: by `order_id` when given, else by `provider_tx_id`; a 400
   * without either and a 404 when nothing matches.
   */
  function Status(orders: seq<Order>, orderId: Option<string>, txId: Option<string>): (r: Http<StatusView>)
    ensures !Truthy(orderId) && !Truthy(txId) <==> r == Fail(400, "Missing order_id or provider_tx_id")
    ensures Truthy(orderId) && orderId.value in OrderIds(orders) ==> r.Ok?
    ensures !Truthy(orderId) && Truthy(txId) && (exists o :: o in orders && o.providerTxId == txId) ==> r.Ok?
    ensures Truthy(orderId) ==> (r == Fail(404, "Order not found") <==> orderId.value !in OrderIds(orders))
    ensures Truthy(orderId) && r.Ok? ==> r.body.id == orderId.value
    ensures !Truthy(orderId) && Truthy(txId) ==>
              (r == Fail(404, "Order not found") <==> forall o :: o in orders ==> o.providerTxId != txId)
    ensures !Truthy(orderId) && Truthy(txId) && r.Ok? ==> r.body.txId == txId
    ensures r.Ok? ==> r.code == 200 && exists o :: o in orders && r.body == ViewOf(o)
  {
    if !Truthy(orderId) && !Truthy(txId) then Fail(400, "Missing order_id or provider_tx_id")
    else
      var s := if Truthy(orderId) then ById(orderId.value) else ByTx(txId.value);
      match Lookup(orders, s)
      case None =>
        assert Truthy(orderId) ==> orderId.value !in OrderIds(orders);
        Fail(404, "Order not found")
      case Some(o) => Ok(200, ViewOf(o))
  }
}
