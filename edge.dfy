/**
 * The serverless variant of mobile money: four placeholder reference
 * builders, one per provider, and a callback that settles an order named by
 * its id.
 */
module Edge {
  import opened Common
  import opened Ledger

  // ---------------------------------------------------------------------------
  // Reference builders

  datatype EdgeProvider = AirtelMoney | HaloPesa | MPesa | TigoPesa

  function Prefix(p: EdgeProvider): (r: string)
    ensures |r| >= 1 && r[|r| - 1] == '-'
  {
    match p
    case AirtelMoney => "AIRTEL-"
    case HaloPesa => "HALO-"
    case MPesa => "MPESA-"
    case TigoPesa => "TIGO-"
  }

  /** The fixed text every builder answers with. */
  const CheckPhone := "Please check your phone to complete the payment"

  datatype EdgeInitiation = EdgeInitiation(reference: string, message: string)

  /**
   * `initiatePayment` of each provider module: the reference is the prefix,
   * the order id, a dash and the clock in milliseconds; the amount and the
   * phone are only logged, and nothing can fail.
   */
  function InitiatePayment(p: EdgeProvider, orderId: string, amount: int, phone: string, now: nat): (r: EdgeInitiation)
    ensures r.message == CheckPhone
    ensures StartsWith(r.reference, Prefix(p))
  {
    var reference := Prefix(p) + orderId + "-" + NatToString(now);
    StartsWithPrefix(Prefix(p), orderId + "-" + NatToString(now));
    assert reference == Prefix(p) + (orderId + "-" + NatToString(now));
    EdgeInitiation(reference, CheckPhone)
  }

  /** The amount and the phone number make no difference to what a builder returns. */
  lemma AmountAndPhoneIgnored(p: EdgeProvider, orderId: string, a1: int, ph1: string, a2: int, ph2: string, now: nat)
    ensures InitiatePayment(p, orderId, a1, ph1, now) == InitiatePayment(p, orderId, a2, ph2, now)
  {
  }

  // ---------------------------------------------------------------------------
  // Reading a reference back

  datatype ParsedReference = ParsedReference(provider: EdgeProvider, orderId: string, time: nat)

  /** The provider whose prefix the reference starts with, trying them in a fixed order. */
  function ProviderOf(s: string): (r: Option<EdgeProvider>)
    ensures r.Some? ==> StartsWith(s, Prefix(r.value))
  {
    if StartsWith(s, Prefix(AirtelMoney)) then Some(AirtelMoney)
    else if StartsWith(s, Prefix(HaloPesa)) then Some(HaloPesa)
    else if StartsWith(s, Prefix(MPesa)) then Some(MPesa)
    else if StartsWith(s, Prefix(TigoPesa)) then Some(TigoPesa)
    else None
  }

  /** The index of the last dash in `s`, if any. */
  function LastDash(s: string): (r: Option<nat>)
    ensures r.Some? ==> r.value < |s| && s[r.value] == '-' && Free(s[r.value + 1..], '-')
    ensures r.None? ==> Free(s, '-')
  {
    if s == [] then None
    else if s[|s| - 1] == '-' then Some(|s| - 1)
    else LastDash(s[..|s| - 1])
  }

  /**
   * Splits what follows the prefix into order id and time: the order id
   * (which may hold dashes itself) runs up to the last dash, and only digits
   * follow it.
   */
  function ParseBody(p: EdgeProvider, body: string): (r: Option<ParsedReference>)
    ensures r.Some? ==> r.value.provider == p && Contains(body, r.value.orderId)
  {
    match LastDash(body)
    case None => None
    case Some(k) =>
      var digits := body[k + 1..];
      if digits == [] || !AllDigits(digits) then None
      else
        assert body[0..k] == body[..k];
        Some(ParsedReference(p, body[..k], ParseNat(digits)))
  }

  /** Reads a reference back as provider, order id and time. */
  function ParseReference(s: string): (r: Option<ParsedReference>)
    ensures r.Some? ==> StartsWith(s, Prefix(r.value.provider))
  {
    match ProviderOf(s)
    case None => None
    case Some(p) => ParseBody(p, s[|Prefix(p)|..])
  }

  /** A dash-free tail puts the last dash right after the head. */
  lemma {:induction false} LastDashBeforeTail(a: string, d: string)
    requires Free(d, '-')
    ensures LastDash(a + "-" + d) == Some(|a|)
  {
    if d != [] {
      var s := a + "-" + d;
      assert s[|s| - 1] == d[|d| - 1];
      assert s[..|s| - 1] == a + "-" + d[..|d| - 1];
      LastDashBeforeTail(a, d[..|d| - 1]);
    }
  }

  /** Each reference starts with its own provider's prefix and with no other. */
  lemma ProviderOfReference(p: EdgeProvider, rest: string)
    ensures ProviderOf(Prefix(p) + rest) == Some(p)
  {
    var s := Prefix(p) + rest;
    StartsWithPrefix(Prefix(p), rest);
    assert s[0] == Prefix(p)[0];
    forall q | q != p
      ensures !StartsWith(s, Prefix(q))
    {
      assert Prefix(q)[0] != Prefix(p)[0];
    }
  }

  /** What follows the prefix reads back as the order id and the time. */
  lemma {:induction false} BodyRoundTrip(p: EdgeProvider, orderId: string, now: nat)
    ensures ParseBody(p, orderId + "-" + NatToString(now)) == Some(ParsedReference(p, orderId, now))
  {
    var digits := NatToString(now);
    var body := orderId + "-" + digits;
    DigitsHaveNoDash(now);
    LastDashBeforeTail(orderId, digits);
    assert body[|orderId| + 1..] == digits;
    assert body[..|orderId|] == orderId;
    ParseNatToString(now);
  }

  /** The reference a builder returns reads back as the provider, the order id and the time that went in. */
  lemma {:induction false} ReferenceRoundTrip(p: EdgeProvider, orderId: string, amount: int, phone: string, now: nat)
    ensures ParseReference(InitiatePayment(p, orderId, amount, phone, now).reference)
            == Some(ParsedReference(p, orderId, now))
  {
    var rest := orderId + "-" + NatToString(now);
    var s := InitiatePayment(p, orderId, amount, phone, now).reference;
    assert s == Prefix(p) + rest;
    ProviderOfReference(p, rest);
    assert s[|Prefix(p)|..] == rest;
    BodyRoundTrip(p, orderId, now);
  }

  /** Two references agree only when provider, order id and time all agree. */
  lemma ReferenceInjective(p1: EdgeProvider, o1: string, a1: int, ph1: string, t1: nat,
                           p2: EdgeProvider, o2: string, a2: int, ph2: string, t2: nat)
    requires InitiatePayment(p1, o1, a1, ph1, t1).reference == InitiatePayment(p2, o2, a2, ph2, t2).reference
    ensures p1 == p2 && o1 == o2 && t1 == t2
  {
    ReferenceRoundTrip(p1, o1, a1, ph1, t1);
    ReferenceRoundTrip(p2, o2, a2, ph2, t2);
  }

  // ---------------------------------------------------------------------------
  // Callback

  /** The order's payment status and status for a reported status: only an exact 'SUCCESS' is a payment. */
  function EdgeSettlement(status: Option<string>): (r: (PaymentStatus, OrderStatus))
    ensures r.0 == Paid <==> status == Some("SUCCESS")
    ensures r.1 == Confirmed <==> status == Some("SUCCESS")
    ensures r.0 == Paid || r.0 == PaymentFailed
    ensures r.1 == Confirmed || r.1 == Cancelled
  {
    if status == Some("SUCCESS") then (Paid, Confirmed) else (PaymentFailed, Cancelled)
  }

  /** The JSON payload; `reference` is only logged. */
  datatype EdgePayload = EdgePayload(reference: Option<string>, status: Option<string>, orderId: string)

  /** The request body: a payload, or text that does not parse (with the parser's message). */
  datatype EdgeBody = Parsed(payload: EdgePayload) | Unparsable(message: string)

  /**
   * The callback. A body that does not parse and a failing update both end in
   * a 500 whose body carries success false and the error text, with nothing
   * written. Otherwise the order whose id is `orderId` gets the mapped payment
   * status and status and the update time, and the reply is success, also
   * when no order has that id. `dbError` is the text the reply carries when
   * the update fails.
   */
  method Callback(ledger: OrderTable, body: EdgeBody, now: int, dbError: Option<string>) returns (r: Http<bool>)
    requires ledger.Valid()
    modifies ledger
    ensures ledger.Valid() && ledger.items == old(ledger.items)
    ensures body.Unparsable? ==> r == Fail(500, body.message) && ledger.orders == old(ledger.orders)
    ensures body.Parsed? && dbError.Some? ==> r == Fail(500, dbError.value) && ledger.orders == old(ledger.orders)
    ensures body.Parsed? && dbError.None? ==>
              var (payment, status) := EdgeSettlement(body.payload.status);
              && r == Ok(200, true)
              && ledger.orders == Rewrite(old(ledger.orders), ById(body.payload.orderId), SettleOrder(payment, status, now))
  {
    if body.Unparsable? {
      return Fail(500, body.message);
    }
    var (payment, status) := EdgeSettlement(body.payload.status);
    if dbError.Some? {
      return Fail(500, dbError.value);
    }
    var _ := ledger.Update(ById(body.payload.orderId), SettleOrder(payment, status, now));
    r := Ok(200, true);
  }

  /**
   * What the callback's update does: the named order alone changes, in its
   * payment status, status and update time only; an id no order has changes
   * nothing.
   */
  lemma {:induction false} CallbackEffect(orders: seq<Order>, payload: EdgePayload, now: int)
    ensures var (payment, status) := EdgeSettlement(payload.status);
      var r := Rewrite(orders, ById(payload.orderId), SettleOrder(payment, status, now));
      && (payload.orderId !in OrderIds(orders) ==> r == orders)
      && forall i :: 0 <= i < |orders| ==>
           if orders[i].id == payload.orderId
           then r[i] == orders[i].(paymentStatus := payment, status := status, updatedAt := Some(now))
           else r[i] == orders[i]
  {
    var (payment, status) := EdgeSettlement(payload.status);
    var r := Rewrite(orders, ById(payload.orderId), SettleOrder(payment, status, now));
    if payload.orderId !in OrderIds(orders) {
      assert forall i :: 0 <= i < |orders| ==> r[i] == orders[i];
    }
  }
}
