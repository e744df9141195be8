/**
 * The browser-side cart of a signed-in user: a local copy of the user's
 * cart lines kept beside the shared `cart_items` table, with the add,
 * update, remove and clear operations the pages call.
 */
module CartContext {
  import opened Common
  import opened CartStore

  /** `cartItems.find(item => item.product_id === productId)`: the first local line for the product. */
  function FindLocal(items: seq<CartLine>, product: ProductId): (r: Option<CartLine>)
    ensures r.Some? ==> r.value in items && r.value.product == product
    ensures r.None? <==> forall l :: l in items ==> l.product != product
    ensures r.Some? ==> exists i :: 0 <= i < |items| && items[i] == r.value
                                    && forall j :: 0 <= j < i ==> items[j].product != product
  {
    if items == [] then None
    else if items[0].product == product then Some(items[0])
    else
      var r := FindLocal(items[1..], product);
      assert forall l :: l in items[1..] ==> l in items;
      assert r.Some? ==> exists i :: 0 <= i < |items[1..]| && items[1..][i] == r.value
                                     && forall j :: 0 <= j < i ==> items[1..][j].product != product;
      r
  }

  /** What `updateQuantity` does to the table: below 1 the line is deleted, otherwise its quantity is set. */
  function Updated(lines: seq<CartLine>, id: LineId, q: int): seq<CartLine> {
    if q < 1 then WithoutId(lines, id) else Requantified(lines, id, q)
  }

  /** The quantity an owner's lines hold together, over all products. */
  function OwnerTotal(lines: seq<CartLine>, owner: Owner): int {
    if lines == [] then 0
    else OwnerTotal(lines[..|lines| - 1], owner)
         + (if lines[|lines| - 1].owner == owner then lines[|lines| - 1].quantity else 0)
  }

  /** The count the page shows for a fresh read of an owner's lines is that owner's total in the table. */
  lemma {:induction false} OwnedByTotal(lines: seq<CartLine>, owner: Owner)
    ensures SumQuantities(OwnedBy(lines, owner)) == OwnerTotal(lines, owner)
  {
    if lines != [] {
      var n := |lines|;
      var rest := OwnedBy(lines[..n - 1], owner);
      OwnedByTotal(lines[..n - 1], owner);
      if lines[n - 1].owner == owner {
        SumQuantitiesAppend(rest, [lines[n - 1]]);
        assert SumQuantities([lines[n - 1]]) == lines[n - 1].quantity;
      }
    }
  }

  lemma {:induction false} OwnerTotalUpdate(lines: seq<CartLine>, k: nat, x: CartLine, owner: Owner)
    requires k < |lines|
    ensures OwnerTotal(lines[k := x], owner)
         == OwnerTotal(lines, owner) - (if lines[k].owner == owner then lines[k].quantity else 0)
                                     + (if x.owner == owner then x.quantity else 0)
  {
    var n := |lines|;
    if k == n - 1 {
      assert lines[k := x][..n - 1] == lines[..n - 1];
    } else {
      assert lines[k := x][..n - 1] == lines[..n - 1][k := x];
      OwnerTotalUpdate(lines[..n - 1], k, x, owner);
    }
  }

  /** With distinct ids, setting a line's quantity by id rewrites exactly that line. */
  lemma RequantifiedAt(lines: seq<CartLine>, k: nat, q: int)
    requires WellKeyed(lines) && k < |lines|
    ensures Requantified(lines, lines[k].id, q) == lines[k := lines[k].(quantity := q)]
  {
    var r := Requantified(lines, lines[k].id, q);
    forall i | 0 <= i < |lines| && i != k ensures lines[i].id != lines[k].id {
      if i < k { assert !Clash(lines[i], lines[k]); } else { assert !Clash(lines[k], lines[i]); }
    }
  }

  /** With distinct ids, deleting the last line by id leaves the lines before it. */
  lemma WithoutLastId(lines: seq<CartLine>)
    requires WellKeyed(lines) && |lines| >= 1
    ensures WithoutId(lines, lines[|lines| - 1].id) == lines[..|lines| - 1]
  {
    var n := |lines|;
    var init := lines[..n - 1];
    var id := lines[n - 1].id;
    assert lines == init + [lines[n - 1]];
    forall l | l in init ensures l.id != id {
      var i :| 0 <= i < |init| && init[i] == l;
      assert !Clash(lines[i], lines[n - 1]);
    }
    FilterKeepsAll(init, (l: CartLine) => l.id != id);
    assert WithoutId(lines, id) == WithoutId(init, id);
  }

  /** With distinct ids, deleting a line by id takes exactly that line's quantity off its owner's total. */
  lemma {:induction false} OwnerTotalWithoutId(lines: seq<CartLine>, k: nat, owner: Owner)
    requires WellKeyed(lines) && k < |lines|
    ensures OwnerTotal(WithoutId(lines, lines[k].id), owner)
         == OwnerTotal(lines, owner) - (if lines[k].owner == owner then lines[k].quantity else 0)
  {
    var n := |lines|;
    if k == n - 1 {
      WithoutLastId(lines);
    } else {
      var init := lines[..n - 1];
      var last := lines[n - 1];
      var id := lines[k].id;
      assert init[k] == lines[k];
      OwnerTotalWithoutId(init, k, owner);
      assert last.id != id by { assert !Clash(lines[k], lines[n - 1]); }
      var rest := WithoutId(init, id);
      assert WithoutId(lines, id) == rest + [last];
      assert (rest + [last])[..|rest|] == rest;
    }
  }

  /** The table after an add whose local copy matches the table (as right after a refresh). */
  function SyncedAdd(lines: seq<CartLine>, user: string, product: ProductId, q: int, freshId: LineId): seq<CartLine> {
    match FindLocal(OwnedBy(lines, User(user)), product)
    case Some(e) => Updated(lines, e.id, e.quantity + q)
    case None =>
      var line := CartLine(freshId, User(user), product, q);
      if Insertable(lines, line) then lines + [line] else lines
  }

  /**
   * An add for a product the user has no line for inserts one line with the
   * added quantity: the insert cannot clash, the count rises by the quantity
   * and no other key moves.
   */
  lemma SyncedAddNew(lines: seq<CartLine>, user: string, product: ProductId, q: int, freshId: LineId)
    requires WellKeyed(lines) && freshId !in Ids(lines)
    requires !HasLine(lines, User(user), product)
    ensures Insertable(lines, CartLine(freshId, User(user), product, q))
    ensures SyncedAdd(lines, user, product, q, freshId) == lines + [CartLine(freshId, User(user), product, q)]
    ensures WellKeyed(SyncedAdd(lines, user, product, q, freshId))
    ensures QuantityOf(SyncedAdd(lines, user, product, q, freshId), User(user), product) == q
    ensures OwnerTotal(SyncedAdd(lines, user, product, q, freshId), User(user)) == OwnerTotal(lines, User(user)) + q
  {
    var line := CartLine(freshId, User(user), product, q);
    forall i | 0 <= i < |lines| ensures !Clash(lines[i], line) {
      assert lines[i].id in Ids(lines);
    }
    var mine := OwnedBy(lines, User(user));
    assert FindLocal(mine, product).None?;
    var after := lines + [line];
    assert after[..|lines|] == lines;
    forall i, j | 0 <= i < j < |after| ensures !Clash(after[i], after[j]) {
      if j < |lines| { assert after[i] == lines[i] && after[j] == lines[j]; }
    }
    NoLineNoQuantity(lines, User(user), product);
  }

  /** A fresh read of the user's lines finds, for a product, the one stored line of that key. */
  lemma LocalLineIsStored(lines: seq<CartLine>, user: string, k: nat)
    requires WellKeyed(lines) && k < |lines| && lines[k].owner == User(user)
    ensures FindLocal(OwnedBy(lines, User(user)), lines[k].product) == Some(lines[k])
  {
    var mine := OwnedBy(lines, User(user));
    assert lines[k] in mine;
  }

  /**
   * For a product the user has a line for, an add never inserts: it sets that
   * one line to the sum, or deletes it when the sum is below 1.
   */
  lemma SyncedAddIsUpdate(lines: seq<CartLine>, user: string, q: int, freshId: LineId, k: nat)
    requires WellKeyed(lines) && k < |lines| && lines[k].owner == User(user)
    ensures lines[k].quantity + q >= 1 ==>
              SyncedAdd(lines, user, lines[k].product, q, freshId) == lines[k := lines[k].(quantity := lines[k].quantity + q)]
    ensures lines[k].quantity + q < 1 ==>
              SyncedAdd(lines, user, lines[k].product, q, freshId) == WithoutId(lines, lines[k].id)
  {
    LocalLineIsStored(lines, user, k);
    RequantifiedAt(lines, k, lines[k].quantity + q);
  }

  /**
   * Setting an existing line of the user to its quantity plus `q` (at least
   * 1): the constraints hold, the key's quantity and the user's total rise by
   * `q`, and no other key moves.
   */
  lemma RaiseLine(lines: seq<CartLine>, user: string, q: int, k: nat)
    requires WellKeyed(lines) && k < |lines| && lines[k].owner == User(user)
    requires lines[k].quantity + q >= 1
    ensures var after := lines[k := lines[k].(quantity := lines[k].quantity + q)];
      && WellKeyed(after)
      && QuantityOf(after, User(user), lines[k].product) == QuantityOf(lines, User(user), lines[k].product) + q
      && OwnerTotal(after, User(user)) == OwnerTotal(lines, User(user)) + q
      && (forall o, p :: (o, p) != (User(user), lines[k].product) ==> QuantityOf(after, o, p) == QuantityOf(lines, o, p))
  {
    var e := lines[k];
    var x := e.(quantity := e.quantity + q);
    var after := lines[k := x];
    RequantifiedAt(lines, k, e.quantity + q);
    RequantifyKeepsKeys(lines, e.id, e.quantity + q);
    OwnerTotalUpdate(lines, k, x, User(user));
    forall o, p ensures QuantityOf(after, o, p) == QuantityOf(lines, o, p) - Share(e, o, p) + Share(x, o, p) {
      QuantityOfUpdate(lines, k, x, o, p);
    }
  }

  /**
   * Deleting an existing line of the user by id: the constraints hold, the
   * user keeps no line for that product, the user's total drops by the
   * line's quantity, and no other key moves.
   */
  lemma DropLine(lines: seq<CartLine>, user: string, k: nat)
    requires WellKeyed(lines) && k < |lines| && lines[k].owner == User(user)
    ensures var after := WithoutId(lines, lines[k].id);
      && WellKeyed(after)
      && !HasLine(after, User(user), lines[k].product)
      && OwnerTotal(after, User(user)) == OwnerTotal(lines, User(user)) - lines[k].quantity
      && (forall o, p :: (o, p) != (User(user), lines[k].product) ==> QuantityOf(after, o, p) == QuantityOf(lines, o, p))
  {
    FilterKeepsKeys(lines, (l: CartLine) => l.id != lines[k].id);
    OwnerTotalWithoutId(lines, k, User(user));
    DropLeavesNoLine(lines, k);
    DropKeepsOtherKeys(lines, k);
  }

  lemma DropLeavesNoLine(lines: seq<CartLine>, k: nat)
    requires WellKeyed(lines) && k < |lines|
    ensures lines[k].owner != Unowned ==> !HasLine(WithoutId(lines, lines[k].id), lines[k].owner, lines[k].product)
  {
    var e := lines[k];
    var after := WithoutId(lines, e.id);
    forall i | 0 <= i < |after| && e.owner != Unowned ensures !(after[i].owner == e.owner && after[i].product == e.product) {
      assert after[i] in after;
      var j :| 0 <= j < |lines| && lines[j] == after[i];
      if j < k { assert !Clash(lines[j], lines[k]); }
      if j > k { assert !Clash(lines[k], lines[j]); }
    }
  }

  lemma DropKeepsOtherKeys(lines: seq<CartLine>, k: nat)
    requires WellKeyed(lines) && k < |lines|
    ensures forall o, p :: (o, p) != (lines[k].owner, lines[k].product) ==>
              QuantityOf(WithoutId(lines, lines[k].id), o, p) == QuantityOf(lines, o, p)
  {
    var e := lines[k];
    forall o, p | (o, p) != (e.owner, e.product) ensures QuantityOf(WithoutId(lines, e.id), o, p) == QuantityOf(lines, o, p) {
      forall l | l in lines && l.owner == o && l.product == p ensures l.id != e.id {
        var j :| 0 <= j < |lines| && lines[j] == l;
        if j < k { assert !Clash(lines[j], lines[k]); }
        if j > k { assert !Clash(lines[k], lines[j]); }
      }
      QuantityOfFilterKeeps(lines, (l: CartLine) => l.id != e.id, o, p);
    }
  }

  /** A signed-out session, or a signed-in one showing its user's lines. */
  class CartSession {
    /** The signed-in user's id, if any. */
    const user: Option<string>
    /** The shared cart table. */
    const table: CartItems
    /** The local copy of the user's lines that the pages render. */
    var items: seq<CartLine>

    ghost predicate Valid()
      reads this, table
    {
      table.Valid()
    }

    /** What a refresh reads from the table: the user's lines, or nothing when signed out. */
    function Visible(lines: seq<CartLine>): (r: seq<CartLine>)
      ensures user.None? ==> r == []
      ensures user.Some? ==> forall l :: l in r <==> l in lines && l.owner == User(user.value)
    {
      if user.Some? then OwnedBy(lines, User(user.value)) else []
    }

    /** The local copy matches the table. */
    ghost predicate InSync()
      reads this, table
    {
      items == Visible(table.lines)
    }

    constructor (user: Option<string>, table: CartItems)
      requires table.Valid()
      ensures Valid() && this.user == user && this.table == table && items == []
    {
      this.user := user;
      this.table := table;
      items := [];
    }

    /**
     * `cartCount`: the sum of the local lines' quantities, which right after
     * a refresh is the user's total quantity in the table.
     */
    function CartCount(): (c: int)
      reads this, table
      ensures items == [] ==> c == 0
      ensures InSync() && user.Some? ==> c == OwnerTotal(table.lines, User(user.value))
    {
      if user.Some? then
        OwnedByTotal(table.lines, User(user.value));
        SumQuantities(items)
      else SumQuantities(items)
    }

    /**
     * `refreshCart`: signed out, the local copy is emptied; signed in, the
     * user's lines are read, and a failing read (`failed`) keeps the stale copy.
     */
    method Refresh(failed: bool)
      requires Valid()
      modifies this
      ensures Valid() && table.lines == old(table.lines)
      ensures user.None? || !failed ==> InSync()
      ensures user.Some? && failed ==> items == old(items)
    {
      if user.Some? && failed {
        return;
      }
      items := Visible(table.lines);
    }

    /** Deletes a line by id and refreshes; a failing delete (`failed`) changes nothing and skips the refresh. */
    method RemoveFromCart(id: LineId, failed: bool)
      requires Valid()
      modifies this, table
      ensures Valid()
      ensures failed ==> table.lines == old(table.lines) && items == old(items)
      ensures !failed ==> table.lines == WithoutId(old(table.lines), id) && InSync()
    {
      if failed {
        return;
      }
      table.DeleteId(id);
      Refresh(false);
    }

    /**
     * Below 1 the line is removed, otherwise its quantity is set, then the
     * local copy is refreshed; a failing write (`failed`) changes nothing.
     */
    method UpdateQuantity(id: LineId, q: int, failed: bool)
      requires Valid()
      modifies this, table
      ensures Valid()
      ensures failed ==> table.lines == old(table.lines) && items == old(items)
      ensures !failed ==> table.lines == Updated(old(table.lines), id, q) && InSync()
    {
      if q < 1 {
        RemoveFromCart(id, failed);
        return;
      }
      if failed {
        return;
      }
      var _ := table.Requantify(id, q);
      Refresh(false);
    }

    /**
     * Adds `quantity` (default 1) of a product: signed out, nothing happens; a
     * product already in the local copy goes through `UpdateQuantity` with the
     * sum; otherwise one line is inserted, which the table may refuse. A
     * failing write (`failed`) changes nothing.
     */
    method AddToCart(product: ProductId, quantity: Option<int>, freshId: LineId, failed: bool)
      requires Valid() && freshId !in Ids(table.lines)
      modifies this, table
      ensures Valid()
      ensures user.None? ==> items == old(items) && table.lines == old(table.lines)
      ensures user.Some? ==>
        var q := if quantity.Some? then quantity.value else 1;
        match FindLocal(old(items), product)
        case Some(e) =>
          if failed then table.lines == old(table.lines) && items == old(items)
          else table.lines == Updated(old(table.lines), e.id, e.quantity + q) && InSync()
        case None =>
          var line := CartLine(freshId, User(user.value), product, q);
          if !failed && Insertable(old(table.lines), line) then table.lines == old(table.lines) + [line] && InSync()
          else table.lines == old(table.lines) && items == old(items)
    {
      if user.None? {
        return;
      }
      var q := if quantity.Some? then quantity.value else 1;
      var existing := FindLocal(items, product);
      if existing.Some? {
        UpdateQuantity(existing.value.id, existing.value.quantity + q, failed);
        return;
      }
      InsertLine(CartLine(freshId, User(user.value), product, q), failed);
    }

    /**
     * Inserts one line and, when the table accepts it, refreshes the local
     * copy; a refused or failing insert changes nothing.
     */
    method InsertLine(line: CartLine, failed: bool)
      requires Valid()
      modifies this, table
      ensures Valid()
      ensures !failed && Insertable(old(table.lines), line) ==> table.lines == old(table.lines) + [line] && InSync()
      ensures failed || !Insertable(old(table.lines), line) ==> table.lines == old(table.lines) && items == old(items)
    {
      if failed {
        return;
      }
      var ok := table.Insert(line);
      if ok {
        Refresh(false);
      }
    }

    /**
     * Empties the user's cart in the table and locally; signed out, or when
     * the delete fails (`failed`), nothing changes.
     */
    method ClearCart(failed: bool)
      requires Valid()
      modifies this, table
      ensures Valid()
      ensures user.None? || failed ==> items == old(items) && table.lines == old(table.lines)
      ensures user.Some? && !failed ==> table.lines == WithoutOwner(old(table.lines), User(user.value)) && items == [] && InSync()
    {
      if user.None? || failed {
        return;
      }
      table.DeleteOwner(User(user.value));
      FilterNone(table.lines, (l: CartLine) => l.owner == User(user.value));
      items := [];
    }
  }

  /** In a session in sync with the table, a product missing from the local copy has no line in the table. */
  lemma LocalMissMeansNoLine(lines: seq<CartLine>, user: string, product: ProductId)
    ensures FindLocal(OwnedBy(lines, User(user)), product).None? <==> !HasLine(lines, User(user), product)
  {
    var mine := OwnedBy(lines, User(user));
    if HasLine(lines, User(user), product) {
      var i :| 0 <= i < |lines| && lines[i].owner == User(user) && lines[i].product == product;
      assert lines[i] in mine;
    }
  }
}
