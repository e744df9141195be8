/**
 * The `cart_items` table: one row per (owner, product) with a quantity.
 * An owner is a signed-in user id or an anonymous guest token; a row written
 * with neither has both columns NULL, and NULL never collides in the unique
 * indexes on (user_id, product_id) and (guest_token, product_id).
 *
 * The table is a class over a sequence of rows; each SQL statement the
 * handlers issue is one method whose effect is a function of the rows
 * before it. The lemmas state what those functions keep: one row per key,
 * the quantity arithmetic of the upsert, and that nothing else changes.
 */
module CartStore {
  import opened Common

  type LineId = string
  type ProductId = string

  datatype Owner = User(userId: string) | Guest(token: string) | Unowned

  datatype CartLine = CartLine(id: LineId, owner: Owner, product: ProductId, quantity: int)

  /** A row of the `products` table, as far as the core reads it. */
  datatype Product = Product(name: string, price: int, active: bool)

  type Catalog = map<ProductId, Product>

  /** A cart row joined with its product, as `JOIN products p ON p.id = ci.product_id` yields it. */
  datatype CartRow = CartRow(line: CartLine, product: Product)

  /** Row `l` collides with a new row for (owner, product) in one of the two unique indexes. */
  predicate Conflicts(l: CartLine, owner: Owner, product: ProductId) {
    owner != Unowned && l.owner == owner && l.product == product
  }

  /** Two rows that the table's primary key or unique indexes forbid side by side. */
  predicate Clash(a: CartLine, b: CartLine) {
    a.id == b.id || Conflicts(a, b.owner, b.product)
  }

  /** The insert succeeds when the new line clashes with no stored line. */
  predicate Insertable(lines: seq<CartLine>, line: CartLine) {
    forall i :: 0 <= i < |lines| ==> !Clash(lines[i], line)
  }

  /** The table's constraints: distinct ids and at most one row per owned (owner, product). */
  ghost predicate WellKeyed(lines: seq<CartLine>) {
    forall i, j :: 0 <= i < j < |lines| ==> !Clash(lines[i], lines[j])
  }

  function Ids(lines: seq<CartLine>): set<LineId> {
    set i | 0 <= i < |lines| :: lines[i].id
  }

  predicate HasLine(lines: seq<CartLine>, owner: Owner, product: ProductId) {
    exists i :: 0 <= i < |lines| && lines[i].owner == owner && lines[i].product == product
  }

  // ---------------------------------------------------------------------------
  // Quantities

  function Share(l: CartLine, owner: Owner, product: ProductId): int {
    if l.owner == owner && l.product == product then l.quantity else 0
  }

  /** The quantity the table holds for (owner, product), summed over its rows. */
  function QuantityOf(lines: seq<CartLine>, owner: Owner, product: ProductId): int {
    if lines == [] then 0
    else QuantityOf(lines[..|lines| - 1], owner, product) + Share(lines[|lines| - 1], owner, product)
  }

  /** `items.reduce((sum, item) => sum + item.quantity, 0)`. */
  function SumQuantities(lines: seq<CartLine>): int {
    if lines == [] then 0 else SumQuantities(lines[..|lines| - 1]) + lines[|lines| - 1].quantity
  }

  lemma {:induction false} QuantityOfAppend(lines: seq<CartLine>, extra: seq<CartLine>, owner: Owner, product: ProductId)
    ensures QuantityOf(lines + extra, owner, product) == QuantityOf(lines, owner, product) + QuantityOf(extra, owner, product)
  {
    if extra != [] {
      var n := |extra|;
      assert (lines + extra)[..|lines + extra| - 1] == lines + extra[..n - 1];
      QuantityOfAppend(lines, extra[..n - 1], owner, product);
    } else {
      assert lines + extra == lines;
    }
  }

  lemma {:induction false} QuantityOfUpdate(lines: seq<CartLine>, k: nat, x: CartLine, owner: Owner, product: ProductId)
    requires k < |lines|
    ensures QuantityOf(lines[k := x], owner, product)
         == QuantityOf(lines, owner, product) - Share(lines[k], owner, product) + Share(x, owner, product)
  {
    var n := |lines|;
    if k == n - 1 {
      assert lines[k := x][..n - 1] == lines[..n - 1];
    } else {
      assert lines[k := x][..n - 1] == lines[..n - 1][k := x];
      QuantityOfUpdate(lines[..n - 1], k, x, owner, product);
    }
  }

  lemma {:induction false} SumQuantitiesAppend(a: seq<CartLine>, b: seq<CartLine>)
    ensures SumQuantities(a + b) == SumQuantities(a) + SumQuantities(b)
  {
    if b != [] {
      assert (a + b)[..|a + b| - 1] == a + b[..|b| - 1];
      SumQuantitiesAppend(a, b[..|b| - 1]);
    } else {
      assert a + b == a;
    }
  }

  lemma {:induction false} SumQuantitiesUpdate(lines: seq<CartLine>, k: nat, x: CartLine)
    requires k < |lines|
    ensures SumQuantities(lines[k := x]) == SumQuantities(lines) - lines[k].quantity + x.quantity
  {
    var n := |lines|;
    if k == n - 1 {
      assert lines[k := x][..n - 1] == lines[..n - 1];
    } else {
      assert lines[k := x][..n - 1] == lines[..n - 1][k := x];
      SumQuantitiesUpdate(lines[..n - 1], k, x);
    }
  }

  // ---------------------------------------------------------------------------
  // Filters: SELECT ... WHERE and DELETE ... WHERE

  /** `SELECT ... FROM cart_items WHERE <owner column> = $1`. */
  function OwnedBy(lines: seq<CartLine>, owner: Owner): (r: seq<CartLine>)
    ensures forall l :: l in r <==> l in lines && l.owner == owner
  {
    Filter(lines, (l: CartLine) => l.owner == owner)
  }

  /** `DELETE FROM cart_items WHERE <owner column> = $1`. */
  function WithoutOwner(lines: seq<CartLine>, owner: Owner): (r: seq<CartLine>)
    ensures forall l :: l in r <==> l in lines && l.owner != owner
  {
    Filter(lines, (l: CartLine) => l.owner != owner)
  }

  /** `DELETE FROM cart_items WHERE id = $1`. */
  function WithoutId(lines: seq<CartLine>, id: LineId): (r: seq<CartLine>)
    ensures forall l :: l in r <==> l in lines && l.id != id
  {
    Filter(lines, (l: CartLine) => l.id != id)
  }

  lemma {:induction false} FilterKeepsKeys(lines: seq<CartLine>, keep: CartLine -> bool)
    requires WellKeyed(lines)
    ensures WellKeyed(Filter(lines, keep))
    ensures Ids(Filter(lines, keep)) <= Ids(lines)
  {
    if lines != [] {
      var n := |lines|;
      var init := lines[..n - 1];
      var last := lines[n - 1];
      FilterKeepsKeys(init, keep);
      var rest := Filter(init, keep);
      assert lines == init + [last];
      forall l | l in rest ensures !Clash(l, last) {
        var i :| 0 <= i < |init| && init[i] == l;
        assert lines[i] == l;
      }
      if keep(last) {
        var r := rest + [last];
        forall i, j | 0 <= i < j < |r| ensures !Clash(r[i], r[j]) {
          if j == |r| - 1 {
            assert r[i] in rest;
          } else {
            assert r[i] == rest[i] && r[j] == rest[j];
          }
        }
        forall x | x in Ids(r) ensures x in Ids(lines) {
          var i :| 0 <= i < |r| && r[i].id == x;
          if i < |rest| {
            assert r[i] == rest[i] && rest[i] in init;
          }
          assert r[i] in lines;
        }
      } else {
        forall x | x in Ids(rest) ensures x in Ids(lines) {
          var i :| 0 <= i < |rest| && rest[i].id == x;
          assert rest[i] in lines;
        }
      }
    }
  }

  /** A filter that keeps every row of a key keeps that key's quantity. */
  lemma {:induction false} QuantityOfFilterKeeps(lines: seq<CartLine>, keep: CartLine -> bool, owner: Owner, product: ProductId)
    requires forall l :: l in lines && l.owner == owner && l.product == product ==> keep(l)
    ensures QuantityOf(Filter(lines, keep), owner, product) == QuantityOf(lines, owner, product)
  {
    if lines != [] {
      var n := |lines|;
      var init, last := lines[..n - 1], lines[n - 1];
      assert lines == init + [last];
      QuantityOfFilterKeeps(init, keep, owner, product);
      var rest := Filter(init, keep);
      if keep(last) {
        assert (rest + [last])[..|rest|] == rest;
      }
    }
  }

  /** A filter that drops every row of a key leaves no quantity for it. */
  lemma {:induction false} QuantityOfFilterDrops(lines: seq<CartLine>, keep: CartLine -> bool, owner: Owner, product: ProductId)
    requires forall l :: l in lines && l.owner == owner && l.product == product ==> !keep(l)
    ensures QuantityOf(Filter(lines, keep), owner, product) == 0
  {
    if lines != [] {
      var n := |lines|;
      var init, last := lines[..n - 1], lines[n - 1];
      assert lines == init + [last];
      QuantityOfFilterDrops(init, keep, owner, product);
      var rest := Filter(init, keep);
      if keep(last) {
        assert (rest + [last])[..|rest|] == rest;
      }
    }
  }

  /** A filter that keeps every row changes nothing. */
  lemma {:induction false} FilterKeepsAll(lines: seq<CartLine>, keep: CartLine -> bool)
    requires forall l :: l in lines ==> keep(l)
    ensures Filter(lines, keep) == lines
  {
    if lines != [] {
      var n := |lines|;
      assert forall l :: l in lines[..n - 1] ==> l in lines;
      FilterKeepsAll(lines[..n - 1], keep);
      assert lines == lines[..n - 1] + [lines[n - 1]];
    }
  }

  /** A filter that keeps no row leaves nothing. */
  lemma {:induction false} FilterNone(lines: seq<CartLine>, keep: CartLine -> bool)
    requires forall l :: l in lines ==> !keep(l)
    ensures Filter(lines, keep) == []
  {
    if lines != [] {
      var n := |lines|;
      assert forall l :: l in lines[..n - 1] ==> l in lines;
      FilterNone(lines[..n - 1], keep);
    }
  }

  /** Without a line for a key, the table holds no quantity for it. */
  lemma {:induction false} NoLineNoQuantity(lines: seq<CartLine>, owner: Owner, product: ProductId)
    requires !HasLine(lines, owner, product)
    ensures QuantityOf(lines, owner, product) == 0
  {
    if lines != [] {
      var n := |lines|;
      NoLineNoQuantity(lines[..n - 1], owner, product);
    }
  }

  /** The quantity held for an owned key is the quantity on its one line. */
  lemma {:induction false} SoleLineQuantity(lines: seq<CartLine>, k: nat)
    requires WellKeyed(lines) && k < |lines| && lines[k].owner != Unowned
    ensures QuantityOf(lines, lines[k].owner, lines[k].product) == lines[k].quantity
  {
    var n := |lines|;
    var init := lines[..n - 1];
    var o, p := lines[k].owner, lines[k].product;
    if k == n - 1 {
      forall i | 0 <= i < |init| ensures !(init[i].owner == o && init[i].product == p) {
        assert !Clash(lines[i], lines[k]);
      }
      NoLineNoQuantity(init, o, p);
    } else {
      assert init[k] == lines[k];
      SoleLineQuantity(init, k);
      assert !Clash(lines[k], lines[n - 1]);
    }
  }

  /** The quantity a list of rows holds for a product, whatever their owners. */
  function ProductTotal(rows: seq<CartLine>, product: ProductId): int {
    if rows == [] then 0
    else ProductTotal(rows[..|rows| - 1], product)
         + (if rows[|rows| - 1].product == product then rows[|rows| - 1].quantity else 0)
  }

  lemma {:induction false} OwnedRowsTotal(rows: seq<CartLine>, owner: Owner, product: ProductId)
    requires forall l :: l in rows ==> l.owner == owner
    ensures QuantityOf(rows, owner, product) == ProductTotal(rows, product)
  {
    if rows != [] {
      var n := |rows|;
      assert forall l :: l in rows[..n - 1] ==> l in rows;
      assert rows[n - 1] in rows;
      OwnedRowsTotal(rows[..n - 1], owner, product);
    }
  }

  // ---------------------------------------------------------------------------
  // The upsert: INSERT ... ON CONFLICT (owner, product_id) DO UPDATE SET quantity = quantity + EXCLUDED.quantity

  /** The position of the row a new (owner, product) row would collide with, if any. */
  function FindConflict(lines: seq<CartLine>, owner: Owner, product: ProductId): (r: Option<nat>)
    ensures r.Some? ==> r.value < |lines| && Conflicts(lines[r.value], owner, product)
    ensures r.None? <==> forall i :: 0 <= i < |lines| ==> !Conflicts(lines[i], owner, product)
  {
    if lines == [] then None
    else if Conflicts(lines[0], owner, product) then Some(0)
    else match FindConflict(lines[1..], owner, product)
      case None => None
      case Some(k) => Some(k + 1)
  }

  /** The rows after the upsert: the key's existing row gains the quantity, or a new row holds it. */
  function Upserted(lines: seq<CartLine>, owner: Owner, product: ProductId, qty: int, freshId: LineId): seq<CartLine> {
    match FindConflict(lines, owner, product)
    case Some(k) => lines[k := lines[k].(quantity := lines[k].quantity + qty)]
    case None => lines + [CartLine(freshId, owner, product, qty)]
  }

  /** The row `RETURNING *` yields: the updated row, or the inserted one. */
  function UpsertedRow(lines: seq<CartLine>, owner: Owner, product: ProductId, qty: int, freshId: LineId): CartLine {
    match FindConflict(lines, owner, product)
    case Some(k) => lines[k].(quantity := lines[k].quantity + qty)
    case None => CartLine(freshId, owner, product, qty)
  }

  /** The upsert adds `qty` to the quantity held for its key and leaves every other key's quantity alone. */
  lemma UpsertAdds(lines: seq<CartLine>, owner: Owner, product: ProductId, qty: int, freshId: LineId, o: Owner, p: ProductId)
    ensures QuantityOf(Upserted(lines, owner, product, qty, freshId), o, p)
         == QuantityOf(lines, o, p) + (if o == owner && p == product then qty else 0)
  {
    match FindConflict(lines, owner, product)
    case Some(k) =>
      QuantityOfUpdate(lines, k, lines[k].(quantity := lines[k].quantity + qty), o, p);
    case None =>
      QuantityOfAppend(lines, [CartLine(freshId, owner, product, qty)], o, p);
      assert QuantityOf([CartLine(freshId, owner, product, qty)], o, p)
          == Share(CartLine(freshId, owner, product, qty), o, p);
  }

  /**
   * The upsert keeps the table's constraints, leaves exactly one row for an
   * owned key, returns that row and uses no id but the fresh one.
   */
  lemma UpsertKeepsKeys(lines: seq<CartLine>, owner: Owner, product: ProductId, qty: int, freshId: LineId)
    requires WellKeyed(lines) && freshId !in Ids(lines)
    ensures var r := Upserted(lines, owner, product, qty, freshId);
      && WellKeyed(r)
      && Ids(r) <= Ids(lines) + {freshId}
      && UpsertedRow(lines, owner, product, qty, freshId) in r
      && (owner != Unowned ==> forall i, j :: 0 <= i < j < |r| && r[i].owner == owner && r[i].product == product
                                              ==> !(r[j].owner == owner && r[j].product == product))
  {
    var r := Upserted(lines, owner, product, qty, freshId);
    match FindConflict(lines, owner, product)
    case Some(k) =>
      var x := lines[k].(quantity := lines[k].quantity + qty);
      assert r == lines[k := x];
      forall i, j | 0 <= i < j < |r| ensures !Clash(r[i], r[j]) {
        assert !Clash(lines[i], lines[j]);
      }
      forall id | id in Ids(r) ensures id in Ids(lines) {
        var i :| 0 <= i < |r| && r[i].id == id;
        assert lines[i].id == id;
      }
      assert r[k] == x;
    case None =>
      var x := CartLine(freshId, owner, product, qty);
      assert r == lines + [x];
      forall i, j | 0 <= i < j < |r| ensures !Clash(r[i], r[j]) {
        if j == |lines| {
          assert r[i] == lines[i];
          assert lines[i].id in Ids(lines);
          assert !Conflicts(lines[i], owner, product);
        } else {
          assert r[i] == lines[i] && r[j] == lines[j];
        }
      }
      forall id | id in Ids(r) ensures id in Ids(lines) + {freshId} {
        var i :| 0 <= i < |r| && r[i].id == id;
        if i < |lines| { assert lines[i].id == id; }
      }
      assert r[|lines|] == x;
  }

  /**
   * The upsert leaves a row for its key, keeps every key that had a row,
   * keeps every row of another key unchanged, and adds or changes only a row
   * of its own key.
   */
  lemma UpsertFrame(lines: seq<CartLine>, owner: Owner, product: ProductId, qty: int, freshId: LineId)
    ensures var r := Upserted(lines, owner, product, qty, freshId);
      && HasLine(r, owner, product)
      && (forall o, p :: HasLine(lines, o, p) ==> HasLine(r, o, p))
      && (forall l :: l in lines && !Conflicts(l, owner, product) ==> l in r)
      && (forall l :: l in r ==> l in lines || (l.owner == owner && l.product == product))
  {
    var r := Upserted(lines, owner, product, qty, freshId);
    match FindConflict(lines, owner, product)
    case Some(k) =>
      var x := lines[k].(quantity := lines[k].quantity + qty);
      assert r == lines[k := x];
      assert r[k] == x;
      forall l | l in lines && !Conflicts(l, owner, product) ensures l in r {
        var i :| 0 <= i < |lines| && lines[i] == l;
        assert r[i] == l;
      }
      forall o, p | HasLine(lines, o, p) ensures HasLine(r, o, p) {
        var i :| 0 <= i < |lines| && lines[i].owner == o && lines[i].product == p;
        assert r[i].owner == o && r[i].product == p;
      }
    case None =>
      var x := CartLine(freshId, owner, product, qty);
      assert r == lines + [x];
      assert r[|lines|] == x;
      forall o, p | HasLine(lines, o, p) ensures HasLine(r, o, p) {
        var i :| 0 <= i < |lines| && lines[i].owner == o && lines[i].product == p;
        assert r[i] == lines[i];
      }
  }

  // ---------------------------------------------------------------------------
  // UPDATE cart_items SET quantity = $1 WHERE id = $2

  function Requantified(lines: seq<CartLine>, id: LineId, q: int): (r: seq<CartLine>)
    ensures |r| == |lines|
    ensures forall i :: 0 <= i < |lines| ==> r[i] == (if lines[i].id == id then lines[i].(quantity := q) else lines[i])
  {
    seq(|lines|, i requires 0 <= i < |lines| => if lines[i].id == id then lines[i].(quantity := q) else lines[i])
  }

  /** Setting a quantity keeps the constraints, every id and every key, and changes no other row. */
  lemma RequantifyKeepsKeys(lines: seq<CartLine>, id: LineId, q: int)
    requires WellKeyed(lines)
    ensures var r := Requantified(lines, id, q);
      && WellKeyed(r) && Ids(r) == Ids(lines)
      && (forall l :: l in lines && l.id != id ==> l in r)
      && (forall l :: l in r && l.id == id ==> l.quantity == q)
  {
    var r := Requantified(lines, id, q);
    forall i, j | 0 <= i < j < |r| ensures !Clash(r[i], r[j]) {
      assert !Clash(lines[i], lines[j]);
    }
    forall x | x in Ids(r) ensures x in Ids(lines) {
      var i :| 0 <= i < |r| && r[i].id == x;
      assert lines[i].id == x;
    }
    forall x | x in Ids(lines) ensures x in Ids(r) {
      var i :| 0 <= i < |lines| && lines[i].id == x;
      assert r[i].id == x;
    }
    forall l | l in lines && l.id != id ensures l in r {
      var i :| 0 <= i < |lines| && lines[i] == l;
      assert r[i] == l;
    }
  }

  /** The first row the UPDATE touched, as `update.rows[0]` yields it; None when no row has that id. */
  function FirstWithId(lines: seq<CartLine>, id: LineId): (r: Option<CartLine>)
    ensures r.Some? ==> r.value in lines && r.value.id == id
    ensures r.None? ==> forall l :: l in lines ==> l.id != id
  {
    if lines == [] then None
    else if lines[0].id == id then Some(lines[0])
    else FirstWithId(lines[1..], id)
  }

  // ---------------------------------------------------------------------------
  // The join a cart read performs

  /** Each row whose product exists, paired with that product, in table order. */
  function Joined(lines: seq<CartLine>, catalog: Catalog): (r: seq<CartRow>)
    ensures forall row :: row in r ==>
              row.line in lines && row.line.product in catalog && row.product == catalog[row.line.product]
    ensures forall l :: l in lines && l.product in catalog ==> CartRow(l, catalog[l.product]) in r
  {
    if lines == [] then []
    else
      var rest := Joined(lines[..|lines| - 1], catalog);
      var last := lines[|lines| - 1];
      assert lines == lines[..|lines| - 1] + [last];
      if last.product in catalog then rest + [CartRow(last, catalog[last.product])] else rest
  }

  // ---------------------------------------------------------------------------
  // The table

  class CartItems {
    var lines: seq<CartLine>

    ghost predicate Valid()
      reads this
    {
      WellKeyed(lines)
    }

    constructor ()
      ensures Valid() && lines == []
    {
      lines := [];
    }

    /** INSERT ... ON CONFLICT (owner, product_id) DO UPDATE SET quantity = cart_items.quantity + EXCLUDED.quantity RETURNING * */
    method Upsert(owner: Owner, product: ProductId, qty: int, freshId: LineId) returns (row: CartLine)
      requires Valid() && freshId !in Ids(lines)
      modifies this
      ensures Valid()
      ensures lines == Upserted(old(lines), owner, product, qty, freshId)
      ensures row == UpsertedRow(old(lines), owner, product, qty, freshId)
      ensures row in lines && row.owner == owner && row.product == product
      ensures Ids(lines) <= Ids(old(lines)) + {freshId}
    {
      UpsertKeepsKeys(lines, owner, product, qty, freshId);
      row := UpsertedRow(lines, owner, product, qty, freshId);
      lines := Upserted(lines, owner, product, qty, freshId);
    }

    /** A plain INSERT: refused by the constraints when the id or the owned key is taken. */
    method Insert(line: CartLine) returns (ok: bool)
      requires Valid()
      modifies this
      ensures Valid()
      ensures ok <==> Insertable(old(lines), line)
      ensures lines == if ok then old(lines) + [line] else old(lines)
    {
      ok := Insertable(lines, line);
      if ok {
        var r := lines + [line];
        forall i, j | 0 <= i < j < |r| ensures !Clash(r[i], r[j]) {
          if j == |lines| {
            assert r[i] == lines[i];
            assert !Clash(lines[i], line);
            assert !Clash(line, lines[i]);
          } else {
            assert r[i] == lines[i] && r[j] == lines[j];
          }
        }
        lines := r;
      }
    }

    /** UPDATE cart_items SET quantity = $1 WHERE id = $2 RETURNING * */
    method Requantify(id: LineId, q: int) returns (row: Option<CartLine>)
      requires Valid()
      modifies this
      ensures Valid()
      ensures lines == Requantified(old(lines), id, q)
      ensures row == FirstWithId(lines, id)
      ensures row.Some? <==> id in Ids(old(lines))
    {
      RequantifyKeepsKeys(lines, id, q);
      lines := Requantified(lines, id, q);
      row := FirstWithId(lines, id);
      if id in Ids(lines) {
        var i :| 0 <= i < |lines| && lines[i].id == id;
        assert lines[i] in lines;
      }
    }

    /** DELETE FROM cart_items WHERE id = $1 */
    method DeleteId(id: LineId)
      requires Valid()
      modifies this
      ensures Valid()
      ensures lines == WithoutId(old(lines), id)
    {
      FilterKeepsKeys(lines, (l: CartLine) => l.id != id);
      lines := WithoutId(lines, id);
    }

    /** DELETE FROM cart_items WHERE <owner column> = $1 */
    method DeleteOwner(owner: Owner)
      requires Valid()
      modifies this
      ensures Valid()
      ensures lines == WithoutOwner(old(lines), owner)
      ensures Ids(lines) <= Ids(old(lines))
    {
      FilterKeepsKeys(lines, (l: CartLine) => l.owner != owner);
      lines := WithoutOwner(lines, owner);
    }
  }
}
