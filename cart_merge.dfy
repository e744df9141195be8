/**
 * Moving a guest's cart into a user's cart: every guest line is upserted
 * into the user's cart with the same sum rule as an add, then the guest's
 * lines are deleted. The handler runs no transaction.
 */
module CartMerge {
  import opened Common
  import opened CartStore

  /** Some row of `rows` is for `product`. */
  predicate ProductIn(rows: seq<CartLine>, product: ProductId) {
    exists k :: 0 <= k < |rows| && rows[k].product == product
  }

  /** The table after upserting each of `rows` into `owner`'s cart in order, row k taking fresh id `ids[k]`. */
  function Folded(lines: seq<CartLine>, rows: seq<CartLine>, owner: Owner, ids: seq<LineId>): seq<CartLine>
    requires |ids| == |rows|
  {
    if rows == [] then lines
    else
      var n := |rows|;
      Upserted(Folded(lines, rows[..n - 1], owner, ids[..n - 1]), owner, rows[n - 1].product, rows[n - 1].quantity, ids[n - 1])
  }

  predicate FreshIds(lines: seq<CartLine>, ids: seq<LineId>) {
    && (forall i, j :: 0 <= i < j < |ids| ==> ids[i] != ids[j])
    && (forall i :: 0 <= i < |ids| ==> ids[i] !in Ids(lines))
  }

  /** The whole merge: fold the guest's lines into the user's cart, then drop the guest's lines. */
  function Merged(lines: seq<CartLine>, guest: string, user: string, ids: seq<LineId>): seq<CartLine>
    requires |ids| == |OwnedBy(lines, Guest(guest))|
  {
    WithoutOwner(Folded(lines, OwnedBy(lines, Guest(guest)), User(user), ids), Guest(guest))
  }

  lemma {:induction false} FoldedAdds(lines: seq<CartLine>, rows: seq<CartLine>, owner: Owner, ids: seq<LineId>, o: Owner, p: ProductId)
    requires |ids| == |rows|
    ensures QuantityOf(Folded(lines, rows, owner, ids), o, p)
         == QuantityOf(lines, o, p) + (if o == owner then ProductTotal(rows, p) else 0)
  {
    if rows != [] {
      var n := |rows|;
      FoldedAdds(lines, rows[..n - 1], owner, ids[..n - 1], o, p);
      UpsertAdds(Folded(lines, rows[..n - 1], owner, ids[..n - 1]), owner, rows[n - 1].product, rows[n - 1].quantity, ids[n - 1], o, p);
    }
  }

  function IdSet(ids: seq<LineId>): set<LineId> {
    set k | 0 <= k < |ids| :: ids[k]
  }

  /** The ids of a distinct list are those before the last one plus the last one, which is not among them. */
  lemma IdSetLast(ids: seq<LineId>)
    requires |ids| >= 1 && forall i, j :: 0 <= i < j < |ids| ==> ids[i] != ids[j]
    ensures IdSet(ids) == IdSet(ids[..|ids| - 1]) + {ids[|ids| - 1]}
    ensures ids[|ids| - 1] !in IdSet(ids[..|ids| - 1])
  {
    var n := |ids|;
    var init := ids[..n - 1];
    forall x | x in IdSet(ids) ensures x in IdSet(init) + {ids[n - 1]} {
      var k :| 0 <= k < n && ids[k] == x;
      if k < n - 1 { assert init[k] == x; }
    }
    forall x | x in IdSet(init) ensures x in IdSet(ids) && x != ids[n - 1] {
      var k :| 0 <= k < n - 1 && init[k] == x;
      assert ids[k] == x;
    }
  }

  /** Folding keeps the table's constraints and uses no id but the fresh ones. */
  lemma {:induction false} FoldedKeepsKeys(lines: seq<CartLine>, rows: seq<CartLine>, owner: Owner, ids: seq<LineId>)
    requires |ids| == |rows|
    requires WellKeyed(lines) && FreshIds(lines, ids)
    ensures WellKeyed(Folded(lines, rows, owner, ids))
    ensures Ids(Folded(lines, rows, owner, ids)) <= Ids(lines) + IdSet(ids)
  {
    if rows != [] {
      var n := |rows|;
      var rs, ids0 := rows[..n - 1], ids[..n - 1];
      var g := Folded(lines, rs, owner, ids0);
      assert Folded(lines, rows, owner, ids) == Upserted(g, owner, rows[n - 1].product, rows[n - 1].quantity, ids[n - 1]);
      assert FreshIds(lines, ids0);
      FoldedKeepsKeys(lines, rs, owner, ids0);
      IdSetLast(ids);
      assert ids[n - 1] !in Ids(g) by {
        assert ids[n - 1] !in Ids(lines);
      }
      UpsertKeepsKeys(g, owner, rows[n - 1].product, rows[n - 1].quantity, ids[n - 1]);
    }
  }

  /** Folding one more row is one more upsert. */
  lemma FoldedStep(lines: seq<CartLine>, rows: seq<CartLine>, owner: Owner, ids: seq<LineId>, row: CartLine, id: LineId)
    requires |ids| == |rows|
    ensures Folded(lines, rows + [row], owner, ids + [id])
         == Upserted(Folded(lines, rows, owner, ids), owner, row.product, row.quantity, id)
  {
    assert (rows + [row])[..|rows|] == rows;
    assert (ids + [id])[..|ids|] == ids;
  }

  /** After folding, the owner has a line for every folded product, and every key that had a line keeps one. */
  lemma {:induction false} FoldedHasLines(lines: seq<CartLine>, rows: seq<CartLine>, owner: Owner, ids: seq<LineId>)
    requires |ids| == |rows|
    ensures forall k :: 0 <= k < |rows| ==> HasLine(Folded(lines, rows, owner, ids), owner, rows[k].product)
  {
    if rows != [] {
      var n := |rows|;
      var rs := rows[..n - 1];
      FoldedHasLines(lines, rs, owner, ids[..n - 1]);
      var g := Folded(lines, rs, owner, ids[..n - 1]);
      UpsertFrame(g, owner, rows[n - 1].product, rows[n - 1].quantity, ids[n - 1]);
      forall k | 0 <= k < n - 1 ensures HasLine(g, owner, rows[k].product) {
        assert rs[k] == rows[k];
      }
    }
  }

  /** Folding keeps every line that is not the owner's line for a folded product. */
  lemma {:induction false} FoldedKeepsOthers(lines: seq<CartLine>, rows: seq<CartLine>, owner: Owner, ids: seq<LineId>)
    requires |ids| == |rows| && owner != Unowned
    ensures forall l :: l in lines && !(l.owner == owner && ProductIn(rows, l.product)) ==> l in Folded(lines, rows, owner, ids)
  {
    if rows != [] {
      var n := |rows|;
      var rs := rows[..n - 1];
      FoldedKeepsOthers(lines, rs, owner, ids[..n - 1]);
      var g := Folded(lines, rs, owner, ids[..n - 1]);
      UpsertFrame(g, owner, rows[n - 1].product, rows[n - 1].quantity, ids[n - 1]);
    }
  }

  /** Every line after folding was there before or is the owner's line for a folded product. */
  lemma {:induction false} FoldedOnlyTouches(lines: seq<CartLine>, rows: seq<CartLine>, owner: Owner, ids: seq<LineId>)
    requires |ids| == |rows|
    ensures forall l :: l in Folded(lines, rows, owner, ids) ==> l in lines || (l.owner == owner && ProductIn(rows, l.product))
  {
    if rows != [] {
      var n := |rows|;
      var rs := rows[..n - 1];
      FoldedOnlyTouches(lines, rs, owner, ids[..n - 1]);
      var g := Folded(lines, rs, owner, ids[..n - 1]);
      UpsertFrame(g, owner, rows[n - 1].product, rows[n - 1].quantity, ids[n - 1]);
      forall l | l in g && l !in lines ensures l.owner == owner && ProductIn(rows, l.product) {
        var k :| 0 <= k < |rs| && rs[k].product == l.product;
        assert rows[k].product == l.product;
      }
    }
  }

  lemma OwnedRowsProducts(lines: seq<CartLine>, guest: Owner, p: ProductId)
    ensures ProductIn(OwnedBy(lines, guest), p) <==> HasLine(lines, guest, p)
  {
    var rows := OwnedBy(lines, guest);
    if HasLine(lines, guest, p) {
      var i :| 0 <= i < |lines| && lines[i].owner == guest && lines[i].product == p;
      assert lines[i] in rows;
    }
    if ProductIn(rows, p) {
      var k :| 0 <= k < |rows| && rows[k].product == p;
      assert rows[k] in lines;
    }
  }

  /**
   * After a merge, the user holds, for every product, the old user quantity
   * plus the guest quantity; the guest holds nothing; every other owner's
   * quantities are unchanged.
   */
  lemma MergeAddsGuestQuantities(lines: seq<CartLine>, guest: string, user: string, ids: seq<LineId>, p: ProductId)
    requires |ids| == |OwnedBy(lines, Guest(guest))|
    ensures QuantityOf(Merged(lines, guest, user, ids), User(user), p)
         == QuantityOf(lines, User(user), p) + QuantityOf(lines, Guest(guest), p)
    ensures QuantityOf(Merged(lines, guest, user, ids), Guest(guest), p) == 0
    ensures forall o :: o != User(user) && o != Guest(guest) ==>
              QuantityOf(Merged(lines, guest, user, ids), o, p) == QuantityOf(lines, o, p)
  {
    var rows := OwnedBy(lines, Guest(guest));
    var f := Folded(lines, rows, User(user), ids);
    var dropGuest := (l: CartLine) => l.owner != Guest(guest);
    QuantityOfFilterKeeps(f, dropGuest, User(user), p);
    QuantityOfFilterDrops(f, dropGuest, Guest(guest), p);
    FoldedAdds(lines, rows, User(user), ids, User(user), p);
    OwnedRowsTotal(rows, Guest(guest), p);
    QuantityOfFilterKeeps(lines, (l: CartLine) => l.owner == Guest(guest), Guest(guest), p);
    forall o | o != User(user) && o != Guest(guest)
      ensures QuantityOf(Merged(lines, guest, user, ids), o, p) == QuantityOf(lines, o, p)
    {
      QuantityOfFilterKeeps(f, dropGuest, o, p);
      FoldedAdds(lines, rows, User(user), ids, o, p);
    }
  }

  /**
   * A merge keeps the constraints, leaves no guest line, gives the user one
   * line for every product the guest had, and changes no line except the
   * user's lines for those products.
   */
  lemma MergeFrame(lines: seq<CartLine>, guest: string, user: string, ids: seq<LineId>)
    requires WellKeyed(lines)
    requires |ids| == |OwnedBy(lines, Guest(guest))| && FreshIds(lines, ids)
    ensures var m := Merged(lines, guest, user, ids);
      && WellKeyed(m)
      && (forall l :: l in m ==> l.owner != Guest(guest))
      && (forall p :: HasLine(lines, Guest(guest), p) ==> HasLine(m, User(user), p))
      && (forall l :: l in lines && l.owner != Guest(guest) && !(l.owner == User(user) && HasLine(lines, Guest(guest), l.product))
                      ==> l in m)
      && (forall l :: l in m ==> l in lines || (l.owner == User(user) && HasLine(lines, Guest(guest), l.product)))
  {
    var rows := OwnedBy(lines, Guest(guest));
    FoldedKeepsKeys(lines, rows, User(user), ids);
    FilterKeepsKeys(Folded(lines, rows, User(user), ids), (l: CartLine) => l.owner != Guest(guest));
    MergeGivesUserLines(lines, guest, user, ids);
    MergeKeepsUnaffected(lines, guest, user, ids);
    MergeOnlyTouches(lines, guest, user, ids);
  }

  lemma MergeGivesUserLines(lines: seq<CartLine>, guest: string, user: string, ids: seq<LineId>)
    requires |ids| == |OwnedBy(lines, Guest(guest))|
    ensures forall p :: HasLine(lines, Guest(guest), p) ==> HasLine(Merged(lines, guest, user, ids), User(user), p)
  {
    var rows := OwnedBy(lines, Guest(guest));
    var f := Folded(lines, rows, User(user), ids);
    var m := Merged(lines, guest, user, ids);
    FoldedHasLines(lines, rows, User(user), ids);
    forall p | HasLine(lines, Guest(guest), p) ensures HasLine(m, User(user), p) {
      OwnedRowsProducts(lines, Guest(guest), p);
      var k :| 0 <= k < |rows| && rows[k].product == p;
      assert HasLine(f, User(user), rows[k].product);
      var i :| 0 <= i < |f| && f[i].owner == User(user) && f[i].product == p;
      assert f[i] in m;
    }
  }

  lemma MergeKeepsUnaffected(lines: seq<CartLine>, guest: string, user: string, ids: seq<LineId>)
    requires |ids| == |OwnedBy(lines, Guest(guest))|
    ensures forall l :: l in lines && l.owner != Guest(guest) && !(l.owner == User(user) && HasLine(lines, Guest(guest), l.product))
                        ==> l in Merged(lines, guest, user, ids)
  {
    var rows := OwnedBy(lines, Guest(guest));
    FoldedKeepsOthers(lines, rows, User(user), ids);
    forall l | l in lines && l.owner != Guest(guest) && !(l.owner == User(user) && HasLine(lines, Guest(guest), l.product))
      ensures l in Merged(lines, guest, user, ids)
    {
      OwnedRowsProducts(lines, Guest(guest), l.product);
    }
  }

  lemma MergeOnlyTouches(lines: seq<CartLine>, guest: string, user: string, ids: seq<LineId>)
    requires |ids| == |OwnedBy(lines, Guest(guest))|
    ensures forall l :: l in Merged(lines, guest, user, ids) ==>
              l in lines || (l.owner == User(user) && HasLine(lines, Guest(guest), l.product))
  {
    var rows := OwnedBy(lines, Guest(guest));
    FoldedOnlyTouches(lines, rows, User(user), ids);
    forall l | l in Merged(lines, guest, user, ids)
      ensures l in lines || (l.owner == User(user) && HasLine(lines, Guest(guest), l.product))
    {
      OwnedRowsProducts(lines, Guest(guest), l.product);
    }
  }

  /** A second merge finds no guest lines and changes nothing. */
  lemma MergeIdempotent(lines: seq<CartLine>, guest: string, user: string, ids: seq<LineId>)
    requires |ids| == |OwnedBy(lines, Guest(guest))|
    ensures OwnedBy(Merged(lines, guest, user, ids), Guest(guest)) == []
    ensures Merged(Merged(lines, guest, user, ids), guest, user, []) == Merged(lines, guest, user, ids)
  {
    var m := Merged(lines, guest, user, ids);
    FilterNone(m, (l: CartLine) => l.owner == Guest(guest));
    assert Folded(m, [], User(user), []) == m;
    FilterKeepsAll(m, (l: CartLine) => l.owner != Guest(guest));
  }

  /** Spending the first fresh id on an upsert leaves the others fresh. */
  lemma FreshAfterUpsert(prev: seq<CartLine>, next: seq<CartLine>, ids: seq<LineId>)
    requires |ids| >= 1 && FreshIds(prev, ids) && Ids(next) <= Ids(prev) + {ids[0]}
    ensures FreshIds(next, ids[1..])
  {
    forall k | 0 <= k < |ids| - 1 ensures ids[1..][k] !in Ids(next) {
      assert ids[1..][k] == ids[k + 1];
      assert ids[k + 1] != ids[0];
    }
  }

  /** One more upsert in the merge loop folds one more guest row and spends one more fresh id. */
  lemma FoldedNext(before: seq<CartLine>, rows: seq<CartLine>, owner: Owner, ids: seq<LineId>, i: nat,
                   prev: seq<CartLine>, next: seq<CartLine>)
    requires i < |rows| <= |ids|
    requires prev == Folded(before, rows[..i], owner, ids[..i])
    requires FreshIds(prev, ids[i..])
    requires next == Upserted(prev, owner, rows[i].product, rows[i].quantity, ids[i])
    requires Ids(next) <= Ids(prev) + {ids[i]}
    ensures next == Folded(before, rows[..i + 1], owner, ids[..i + 1])
    ensures FreshIds(next, ids[i + 1..])
  {
    assert ids[i..][0] == ids[i];
    FreshAfterUpsert(prev, next, ids[i..]);
    assert ids[i..][1..] == ids[i + 1..];
    FoldedStep(before, rows[..i], owner, ids[..i], rows[i], ids[i]);
    assert rows[..i + 1] == rows[..i] + [rows[i]];
    assert ids[..i + 1] == ids[..i] + [ids[i]];
  }

  /**
   * POST /cart/merge: both `guest_token` and `user_id` are required; the
   * reply reports how many guest lines were read.
   */
  method Merge(t: CartItems, guestToken: Option<string>, userId: Option<string>, freshIds: seq<LineId>) returns (r: Http<nat>)
    requires t.Valid()
    requires |freshIds| >= |t.lines| && FreshIds(t.lines, freshIds)
    modifies t
    ensures t.Valid()
    ensures !Truthy(guestToken) || !Truthy(userId) ==>
              r == Fail(400, "Missing guest_token or user_id") && t.lines == old(t.lines)
    ensures Truthy(guestToken) && Truthy(userId) ==>
              var rows := OwnedBy(old(t.lines), Guest(guestToken.value));
              && r == Ok(200, |rows|)
              && t.lines == Merged(old(t.lines), guestToken.value, userId.value, freshIds[..|rows|])
  {
    if !Truthy(guestToken) || !Truthy(userId) {
      return Fail(400, "Missing guest_token or user_id");
    }
    var guest, user := guestToken.value, userId.value;
    var rows := OwnedBy(t.lines, Guest(guest));
    ghost var before := t.lines;
    assert freshIds[0..] == freshIds;
    for i := 0 to |rows|
      invariant t.Valid()
      invariant t.lines == Folded(before, rows[..i], User(user), freshIds[..i])
      invariant FreshIds(t.lines, freshIds[i..])
    {
      ghost var prev := t.lines;
      assert freshIds[i..][0] == freshIds[i];
      var _ := t.Upsert(User(user), rows[i].product, rows[i].quantity, freshIds[i]);
      FoldedNext(before, rows, User(user), freshIds, i, prev, t.lines);
    }
    assert rows[..|rows|] == rows;
    t.DeleteOwner(Guest(guest));
    r := Ok(200, |rows|);
  }
}
