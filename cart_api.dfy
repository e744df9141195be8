/**
 * The cart endpoint (GET, POST, PUT, DELETE on `cart_items`). Reads are
 * functions of the table's rows; writes are methods on the table object.
 */
module CartApi {
  import opened Common
  import opened CartStore

  /** The owner whose lines a GET reads: `user_id` when given, otherwise `guest_token`. */
  function ReadOwner(userId: Option<string>, guestToken: Option<string>): Owner
    requires Truthy(userId) || Truthy(guestToken)
  {
    if Truthy(userId) then User(userId.value) else Guest(guestToken.value)
  }

  /** GET: the caller's lines joined with their products. */
  function Get(lines: seq<CartLine>, catalog: Catalog, userId: Option<string>, guestToken: Option<string>): (r: Http<seq<CartRow>>)
    ensures r.Fail? <==> !Truthy(userId) && !Truthy(guestToken)
    ensures r.Fail? ==> r == Fail(400, "Missing user_id or guest_token")
    ensures r.Ok? ==> r.code == 200
    ensures Truthy(userId) && r.Ok? ==>
              forall row :: row in r.body ==> row.line in lines && row.line.owner == User(userId.value)
    ensures !Truthy(userId) && r.Ok? ==>
              forall row :: row in r.body ==> row.line in lines && row.line.owner == Guest(guestToken.value)
    ensures r.Ok? ==> forall row :: row in r.body ==>
              row.line.product in catalog && row.product == catalog[row.line.product]
    ensures r.Ok? ==> forall l :: l in lines && l.owner == ReadOwner(userId, guestToken) && l.product in catalog ==>
              CartRow(l, catalog[l.product]) in r.body
  {
    if !Truthy(userId) && !Truthy(guestToken) then Fail(400, "Missing user_id or guest_token")
    else Ok(200, Joined(OwnedBy(lines, ReadOwner(userId, guestToken)), catalog))
  }

  /** The body POST accepts. */
  datatype AddRequest = AddRequest(productId: ProductId, quantity: Option<int>, userId: Option<string>, guestToken: Option<string>)

  /** The schema accepts a quantity only when it is an integer of at least 1; an absent one means 1. */
  predicate QuantityAccepted(req: AddRequest) {
    req.quantity.None? || req.quantity.value >= 1
  }

  function AddedQuantity(req: AddRequest): int {
    if req.quantity.Some? then req.quantity.value else 1
  }

  /** The owner a POST writes: the user when `user_id` is given, else the guest token (NULL when absent too). */
  function AddOwner(req: AddRequest): Owner {
    if Truthy(req.userId) then User(req.userId.value)
    else if req.guestToken.Some? then Guest(req.guestToken.value)
    else Unowned
  }

  predicate Purchasable(catalog: Catalog, product: ProductId) {
    product in catalog && catalog[product].active
  }

  /** POST: upsert the line, adding to the stored quantity. */
  method Post(t: CartItems, catalog: Catalog, req: AddRequest, freshId: LineId) returns (r: Http<CartLine>)
    requires t.Valid() && freshId !in Ids(t.lines)
    modifies t
    ensures t.Valid()
    ensures !QuantityAccepted(req) ==> r == Fail(500, InvalidBody) && t.lines == old(t.lines)
    ensures QuantityAccepted(req) && !Purchasable(catalog, req.productId) ==>
              r == Fail(400, "Invalid product") && t.lines == old(t.lines)
    ensures QuantityAccepted(req) && Purchasable(catalog, req.productId) ==>
              && t.lines == Upserted(old(t.lines), AddOwner(req), req.productId, AddedQuantity(req), freshId)
              && r == Ok(200, UpsertedRow(old(t.lines), AddOwner(req), req.productId, AddedQuantity(req), freshId))
  {
    if !QuantityAccepted(req) {
      return Fail(500, InvalidBody);
    }
    if !Purchasable(catalog, req.productId) {
      return Fail(400, "Invalid product");
    }
    var row := t.Upsert(AddOwner(req), req.productId, AddedQuantity(req), freshId);
    r := Ok(200, row);
  }

  /** PUT: set one line's quantity exactly; only a missing id or a falsy quantity (absent or 0) is refused. */
  method Put(t: CartItems, id: Option<string>, quantity: Option<int>) returns (r: Http<Option<CartLine>>)
    requires t.Valid()
    modifies t
    ensures t.Valid()
    ensures !Truthy(id) || quantity.None? || quantity.value == 0 ==>
              r == Fail(400, "Missing id or quantity") && t.lines == old(t.lines)
    ensures Truthy(id) && quantity.Some? && quantity.value != 0 ==>
              && t.lines == Requantified(old(t.lines), id.value, quantity.value)
              && r == Ok(200, FirstWithId(t.lines, id.value))
  {
    if !Truthy(id) || quantity.None? || quantity.value == 0 {
      return Fail(400, "Missing id or quantity");
    }
    var row := t.Requantify(id.value, quantity.value);
    r := Ok(200, row);
  }

  /** DELETE: by id, else every line of `user_id`, else every line of `guest_token`. */
  method Delete(t: CartItems, id: Option<string>, userId: Option<string>, guestToken: Option<string>) returns (r: Http<bool>)
    requires t.Valid()
    modifies t
    ensures t.Valid()
    ensures Truthy(id) ==> r == Ok(200, true) && t.lines == WithoutId(old(t.lines), id.value)
    ensures !Truthy(id) && Truthy(userId) ==>
              r == Ok(200, true) && t.lines == WithoutOwner(old(t.lines), User(userId.value))
    ensures !Truthy(id) && !Truthy(userId) && Truthy(guestToken) ==>
              r == Ok(200, true) && t.lines == WithoutOwner(old(t.lines), Guest(guestToken.value))
    ensures !Truthy(id) && !Truthy(userId) && !Truthy(guestToken) ==>
              r == Fail(400, "Missing id or user_id or guest_token") && t.lines == old(t.lines)
  {
    if Truthy(id) {
      t.DeleteId(id.value);
      return Ok(200, true);
    }
    if Truthy(userId) {
      t.DeleteOwner(User(userId.value));
      return Ok(200, true);
    }
    if Truthy(guestToken) {
      t.DeleteOwner(Guest(guestToken.value));
      return Ok(200, true);
    }
    r := Fail(400, "Missing id or user_id or guest_token");
  }

  /**
   * Two adds of the same product by the same owner leave one line holding
   * the sum of both quantities; no other key's quantity moves.
   */
  lemma AddTwiceSums(lines: seq<CartLine>, owner: Owner, product: ProductId, q1: int, q2: int, id1: LineId, id2: LineId)
    requires WellKeyed(lines) && owner != Unowned
    requires !HasLine(lines, owner, product)
    requires id1 !in Ids(lines) && id2 !in Ids(lines) && id1 != id2
    ensures var after := Upserted(Upserted(lines, owner, product, q1, id1), owner, product, q2, id2);
      && WellKeyed(after)
      && QuantityOf(after, owner, product) == q1 + q2
      && (exists i :: 0 <= i < |after| && after[i].owner == owner && after[i].product == product
                      && after[i].quantity == q1 + q2)
      && (forall i, j :: 0 <= i < j < |after| && after[i].owner == owner && after[i].product == product
                         ==> !(after[j].owner == owner && after[j].product == product))
      && (forall o, p :: (o, p) != (owner, product) ==> QuantityOf(after, o, p) == QuantityOf(lines, o, p))
  {
    var mid := Upserted(lines, owner, product, q1, id1);
    var after := Upserted(mid, owner, product, q2, id2);
    var summed := CartLine(id1, owner, product, q1 + q2);
    assert FindConflict(lines, owner, product).None? by {
      forall i | 0 <= i < |lines| ensures !Conflicts(lines[i], owner, product) {
      }
    }
    assert mid == lines + [CartLine(id1, owner, product, q1)];
    assert Conflicts(mid[|lines|], owner, product);
    assert FindConflict(mid, owner, product) == Some(|lines|);
    assert after == lines + [summed];
    assert after == Upserted(lines, owner, product, q1 + q2, id1);
    UpsertKeepsKeys(lines, owner, product, q1 + q2, id1);
    assert after[|lines|] == summed;
    forall o, p ensures QuantityOf(after, o, p) == QuantityOf(lines, o, p) + (if (o, p) == (owner, product) then q1 + q2 else 0) {
      UpsertAdds(lines, owner, product, q1 + q2, id1, o, p);
    }
    NoLineNoQuantity(lines, owner, product);
  }
}
