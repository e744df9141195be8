/**
 * The mobile-money provider adapters and their registry. An adapter starts a
 * payment (through the provider's API when one is configured and answers
 * with a reference, else with locally generated instructions) and records
 * the reference on the order; its callback handler settles every order
 * carrying that reference.
 */
module Adapters {
  import opened Common
  import opened Ledger

  /** The modules the registry directory holds: the registry itself and three adapters. */
  datatype Module = Registry | TigoPesa | Halotel | Vodacom

  /**
   * `getAdapter(name)`: the module of that file name, or null when there is
   * none (the failed import is caught). Every module has a default export, so
   * that is what is returned.
   */
  function GetAdapter(name: string): (r: Option<Module>)
    ensures r.Some? <==> name in {"index", "tigo_pesa", "halotel", "vodacom"}
    ensures r == Some(Registry) <==> name == "index"
  {
    if name == "index" then Some(Registry)
    else if name == "tigo_pesa" then Some(TigoPesa)
    else if name == "halotel" then Some(Halotel)
    else if name == "vodacom" then Some(Vodacom)
    else None
  }

  /** Whether the module's default export has `initiatePayment` and `handleCallback`: the registry's has neither. */
  predicate IsAdapter(m: Module) {
    m != Registry
  }

  /**
   * Of the provider names a payment may be started with, only `tigo_pesa`
   * and `vodacom` reach an adapter; the Halotel adapter is filed as
   * `halotel`, a name that is never asked for.
   */
  lemma ProvidersReachingAdapters(provider: string)
    requires provider in {"tigo_pesa", "airtel_money", "vodacom", "halo_pesa"}
    ensures GetAdapter(provider).Some? && IsAdapter(GetAdapter(provider).value)
            <==> provider == "tigo_pesa" || provider == "vodacom"
    ensures GetAdapter(provider) != Some(Halotel)
  {
  }

  // ---------------------------------------------------------------------------
  // Configuration

  /** An adapter's settings, read once from the environment. */
  datatype Config = Config(merchant: string, sandbox: bool, apiUrl: string, callbackSecret: string)

  /** The environment variables an adapter reads; absent ones are `None`. */
  datatype Env = Env(merchant: Option<string>, sandbox: Option<string>, apiUrl: Option<string>, callbackSecret: Option<string>)

  function DefaultMerchant(m: Module): string
    requires IsAdapter(m)
  {
    match m
    case TigoPesa => "12345"
    case Halotel => "halotel-merchant"
    case Vodacom => "mpesa-merchant"
  }

  /**
   * The settings: a default merchant per provider, sandbox mode unless the
   * variable is set to something other than "true", and no API or callback
   * secret unless configured (Vodacom reads neither).
   */
  function ConfigOf(m: Module, env: Env): (c: Config)
    requires IsAdapter(m)
    ensures c.merchant != ""
    ensures Truthy(env.merchant) ==> c.merchant == env.merchant.value
    ensures !Truthy(env.merchant) ==> c.merchant == DefaultMerchant(m)
    ensures env.sandbox.None? ==> c.sandbox
    ensures c.sandbox <==> !Truthy(env.sandbox) || env.sandbox == Some("true")
    ensures m != Vodacom ==> c.apiUrl == OrElse(env.apiUrl, "") && c.callbackSecret == OrElse(env.callbackSecret, "")
    ensures m == Vodacom ==> c.apiUrl == "" && c.callbackSecret == ""
  {
    var merchant := OrElse(env.merchant, DefaultMerchant(m));
    var sandbox := OrElse(env.sandbox, "true") == "true";
    if m == Vodacom then Config(merchant, sandbox, "", "")
    else Config(merchant, sandbox, OrElse(env.apiUrl, ""), OrElse(env.callbackSecret, ""))
  }

  // ---------------------------------------------------------------------------
  // initiatePayment

  /** What the provider API call came back with: an exception, or the JSON fields that matter. */
  datatype Reply = Threw | Replied(txId: Option<string>, reference: Option<string>, instructions: Option<string>)

  /** The body POSTed to the provider API. */
  datatype ProviderRequest = ProviderRequest(merchant: string, amount: int, phone: string, orderId: OrderId,
                                             reference: string, sandbox: bool)

  /** What initiatePayment returns: the reference recorded on the order and the text shown to the payer. */
  datatype Initiation = Initiation(txId: string, instructions: string)

  /** Whether the API path is taken: an API is configured and its reply names a reference. */
  predicate ReplyUsable(m: Module, c: Config, reply: Reply) {
    m != Vodacom && c.apiUrl != "" && reply.Replied? && (Truthy(reply.txId) || Truthy(reply.reference))
  }

  function SandboxPrefix(c: Config): string {
    if c.sandbox then "SANDBOX: " else ""
  }

  /** The shape every adapter's local instructions share: `<prefix><lead><amount> from <phone><mid><merchant><tail><ref>`. */
  function Instruction(prefix: string, lead: string, amount: string, phone: string, mid: string,
                       merchant: string, tail: string, ref: string): (r: string)
    ensures StartsWith(r, prefix)
    ensures |r| >= |ref| && r[|r| - |ref|..] == ref
  {
    var rest := lead + (amount + (" from " + (phone + (mid + (merchant + (tail + ref))))));
    StartsWithPrefix(prefix, rest);
    prefix + rest
  }

  /** The words of each adapter's local instructions: what precedes the amount, the merchant and the reference. */
  function InstructionWords(m: Module, c: Config): (string, string, string)
    requires IsAdapter(m)
  {
    match m
    case TigoPesa => ("Send TZS ", " to TigoPesa merchant ", if c.sandbox then " and use ref " else " and include ref ")
    case Halotel => ("Halotel: transfer TZS ", " to ", " and reference ")
    case Vodacom => ("M-Pesa: send TZS ", " to ", " and reference ")
  }

  /** The locally generated instructions of each adapter. */
  function FallbackText(m: Module, c: Config, amount: int, phone: string, ref: string): (r: string)
    requires IsAdapter(m)
    ensures StartsWith(r, SandboxPrefix(c))
    ensures |r| >= |ref| && r[|r| - |ref|..] == ref
  {
    var (lead, mid, tail) := InstructionWords(m, c);
    Instruction(SandboxPrefix(c), lead, IntToString(amount), phone, mid, c.merchant, tail, ref)
  }

  /** An instruction names its amount, phone, merchant and reference. */
  lemma InstructionNames(prefix: string, lead: string, amount: string, phone: string, mid: string,
                         merchant: string, tail: string, ref: string)
    ensures var s := Instruction(prefix, lead, amount, phone, mid, merchant, tail, ref);
      Contains(s, amount) && Contains(s, phone) && Contains(s, merchant) && Contains(s, ref)
  {
    var r4 := tail + ref;
    var r3 := merchant + r4;
    var r2 := phone + (mid + r3);
    var r1 := amount + (" from " + r2);
    ContainsHead(amount, " from " + r2);
    ContainsTail(lead, r1, amount);
    ContainsTail(prefix, lead + r1, amount);
    ContainsHead(phone, mid + r3);
    ContainsTail(" from ", r2, phone);
    ContainsTail(amount, " from " + r2, phone);
    ContainsTail(lead, r1, phone);
    ContainsTail(prefix, lead + r1, phone);
    ContainsHead(merchant, r4);
    ContainsTail(mid, r3, merchant);
    ContainsTail(phone, mid + r3, merchant);
    ContainsTail(" from ", r2, merchant);
    ContainsTail(amount, " from " + r2, merchant);
    ContainsTail(lead, r1, merchant);
    ContainsTail(prefix, lead + r1, merchant);
    assert ref[0..|ref|] == ref;
    ContainsTail(tail, ref, ref);
    ContainsTail(merchant, r4, ref);
    ContainsTail(mid, r3, ref);
    ContainsTail(phone, mid + r3, ref);
    ContainsTail(" from ", r2, ref);
    ContainsTail(amount, " from " + r2, ref);
    ContainsTail(lead, r1, ref);
    ContainsTail(prefix, lead + r1, ref);
  }

  /** Without the prefix, an instruction starts with its lead, so it cannot start with "SANDBOX: " unless the lead does. */
  lemma InstructionPrefix(prefix: string, lead: string, amount: string, phone: string, mid: string,
                          merchant: string, tail: string, ref: string)
    requires prefix == "SANDBOX: " || (prefix == "" && |lead| >= 2 && (lead[0] != 'S' || lead[1] != 'A'))
    ensures StartsWith(Instruction(prefix, lead, amount, phone, mid, merchant, tail, ref), "SANDBOX: ")
            <==> prefix == "SANDBOX: "
  {
    var rest := lead + (amount + (" from " + (phone + (mid + (merchant + (tail + ref))))));
    var s := Instruction(prefix, lead, amount, phone, mid, merchant, tail, ref);
    assert s == prefix + rest;
    if prefix == "SANDBOX: " {
      StartsWithPrefix(prefix, rest);
    } else {
      assert s == rest;
      assert s[0] == lead[0] && s[1] == lead[1];
    }
  }

  /**
   * The fallback instructions start with "SANDBOX: " exactly in sandbox mode,
   * and name the amount, the payer's phone, the merchant and the reference.
   */
  lemma FallbackTextFacts(m: Module, c: Config, amount: int, phone: string, ref: string)
    requires IsAdapter(m)
    ensures var s := FallbackText(m, c, amount, phone, ref);
      && (StartsWith(s, "SANDBOX: ") <==> c.sandbox)
      && Contains(s, IntToString(amount)) && Contains(s, phone) && Contains(s, c.merchant) && Contains(s, ref)
  {
    var amt := IntToString(amount);
    var (lead, mid, tail) := InstructionWords(m, c);
    assert lead[0] != 'S' || lead[1] != 'A';
    InstructionNames(SandboxPrefix(c), lead, amt, phone, mid, c.merchant, tail, ref);
    InstructionPrefix(SandboxPrefix(c), lead, amt, phone, mid, c.merchant, tail, ref);
  }

  /** The reference and instructions initiatePayment settles on. */
  function Outcome(m: Module, c: Config, amount: int, phone: string, localRef: string, reply: Reply): (r: Initiation)
    requires IsAdapter(m) && localRef != ""
    ensures ReplyUsable(m, c, reply) && Truthy(reply.txId) ==> r.txId == reply.txId.value
    ensures ReplyUsable(m, c, reply) && !Truthy(reply.txId) ==> r.txId == reply.reference.value
    ensures ReplyUsable(m, c, reply) ==>
              r.instructions == OrElse(reply.instructions, "Follow provider flow to pay TZS " + IntToString(amount))
    ensures !ReplyUsable(m, c, reply) ==> r == Initiation(localRef, FallbackText(m, c, amount, phone, localRef))
    ensures r.txId != ""
    ensures r.txId == localRef || ReplyUsable(m, c, reply)
  {
    if ReplyUsable(m, c, reply) then
      Initiation(if Truthy(reply.txId) then reply.txId.value else reply.reference.value,
                 OrElse(reply.instructions, "Follow provider flow to pay TZS " + IntToString(amount)))
    else Initiation(localRef, FallbackText(m, c, amount, phone, localRef))
  }

  /**
   * `initiatePayment(order, phone)`: calls the provider API when one is
   * configured (Tigo Pesa and Halotel), then writes the reference it settles
   * on to that order's `provider_tx_id` and returns it with the instructions.
   * `localRef` is the locally generated reference, `reply` what the call gave back.
   */
  method Initiate(ledger: OrderTable, m: Module, c: Config, order: Order, phone: string, localRef: string, reply: Reply)
    returns (res: Initiation, sent: Option<ProviderRequest>)
    requires ledger.Valid() && IsAdapter(m) && localRef != ""
    modifies ledger
    ensures ledger.Valid() && ledger.items == old(ledger.items)
    ensures sent.Some? <==> m != Vodacom && c.apiUrl != ""
    ensures sent.Some? ==> sent.value == ProviderRequest(c.merchant, order.total, phone, order.id, localRef, c.sandbox)
    ensures res == Outcome(m, c, order.total, phone, localRef, reply)
    ensures ledger.orders == Rewrite(old(ledger.orders), ById(order.id), SetTx(res.txId))
  {
    sent := None;
    if m != Vodacom && c.apiUrl != "" {
      sent := Some(ProviderRequest(c.merchant, order.total, phone, order.id, localRef, c.sandbox));
    }
    res := Outcome(m, c, order.total, phone, localRef, reply);
    var _ := ledger.Update(ById(order.id), SetTx(res.txId));
  }

  // ---------------------------------------------------------------------------
  // handleCallback

  /** A callback's status: exactly "success" means paid, anything else failed. */
  function SettlementFor(status: string): (p: PaymentStatus)
    ensures p == Paid <==> status == "success"
    ensures p == PaymentFailed <==> status != "success"
  {
    if status == "success" then Paid else PaymentFailed
  }

  /**
   * `handleCallback(payload, headers)`: settles every order carrying the
   * reference and answers the id of the first, if any. `signature` is `None`
   * when no headers or no signature header came with the call, otherwise
   * whether the signature matched. A mismatch is only logged (`warned`); the
   * update happens either way.
   */
  method HandleCallback(ledger: OrderTable, m: Module, c: Config, txId: string, status: string,
                        signature: Option<bool>, now: int) returns (row: Option<OrderId>, warned: bool)
    requires ledger.Valid() && IsAdapter(m)
    modifies ledger
    ensures ledger.Valid() && ledger.items == old(ledger.items)
    ensures ledger.orders == Rewrite(old(ledger.orders), ByTx(txId), Settle(SettlementFor(status), None, now))
    ensures row.Some? <==> exists i :: 0 <= i < |old(ledger.orders)| && old(ledger.orders)[i].providerTxId == Some(txId)
    ensures row.Some? ==> row == Some(Lookup(old(ledger.orders), ByTx(txId)).value.id)
    ensures warned <==> m != Vodacom && c.callbackSecret != "" && signature == Some(false)
  {
    warned := m != Vodacom && c.callbackSecret != "" && signature == Some(false);
    var first := ledger.Update(ByTx(txId), Settle(SettlementFor(status), None, now));
    row := if first.Some? then Some(first.value.id) else None;
  }
}
