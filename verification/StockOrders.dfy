/** Orders and the stock they hold: reservations are covered, released once, and never for an imported order. */
module StockOrders {
  import opened Common
  import opened Ledger
  import opened StockModel
  import opened StockUnits

  // ---------------------------------------------------------------- what an order holds

  /** The quantity movements of this kind took from the place for the order. */
  function OrderQty(ms: seq<Movement>, kind: MovementType, order: Id, v: Id, l: Id): int {
    if ms == [] then 0
    else
      var m, front := ms[|ms| - 1], OrderQty(ms[..|ms| - 1], kind, order, v, l);
      if m.kind == kind && m.reference == Reference("order", order) && m.variant == v
         && m.from.Some? && m.from.value.location == l
      then front + m.qty else front
  }

  /** Active reservation rows of the variant at the place, over all orders. */
  function ActiveQty(rs: seq<Hold>, v: Id, l: Id): int {
    if rs == [] then 0
    else
      var r, front := rs[|rs| - 1], ActiveQty(rs[..|rs| - 1], v, l);
      if r.active && r.variant == v && r.location == l then front + r.qty else front
  }

  function ActiveOf(rs: seq<Hold>, order: Id, v: Id, l: Id): int {
    if rs == [] then 0
    else
      var r, front := rs[|rs| - 1], ActiveOf(rs[..|rs| - 1], order, v, l);
      if r.active && r.order == order && r.variant == v && r.location == l then front + r.qty else front
  }

  lemma {:induction false} OrderQtyPush(ms: seq<Movement>, m: Movement, kind: MovementType, order: Id, v: Id, l: Id)
    ensures OrderQty(ms + [m], kind, order, v, l) == OrderQty(ms, kind, order, v, l)
      + (if m.kind == kind && m.reference == Reference("order", order) && m.variant == v
            && m.from.Some? && m.from.value.location == l then m.qty else 0)
  {
    assert (ms + [m])[..|ms|] == ms;
  }

  lemma {:induction false} ActivePush(rs: seq<Hold>, r: Hold, order: Id, v: Id, l: Id)
    ensures ActiveQty(rs + [r], v, l) ==
      ActiveQty(rs, v, l) + (if r.active && r.variant == v && r.location == l then r.qty else 0)
    ensures ActiveOf(rs + [r], order, v, l) ==
      ActiveOf(rs, order, v, l) + (if r.active && r.order == order && r.variant == v && r.location == l then r.qty else 0)
  {
    assert (rs + [r])[..|rs|] == rs;
  }

  /** Taking one active row out of play takes exactly its quantity out of both sums. */
  lemma {:induction false} ActiveUpdate(rs: seq<Hold>, i: nat, order: Id, v: Id, l: Id)
    requires i < |rs| && rs[i].active
    ensures var off := rs[i := rs[i].(active := false)];
      && ActiveQty(off, v, l) == ActiveQty(rs, v, l) - (if rs[i].variant == v && rs[i].location == l then rs[i].qty else 0)
      && ActiveOf(off, order, v, l) == ActiveOf(rs, order, v, l)
        - (if rs[i].order == order && rs[i].variant == v && rs[i].location == l then rs[i].qty else 0)
  {
    var front, off := rs[..|rs| - 1], rs[i := rs[i].(active := false)];
    if i < |front| {
      ActiveUpdate(front, i, order, v, l);
      assert off[..|front|] == front[i := front[i].(active := false)];
    } else {
      assert off[..|front|] == front;
    }
  }

  // ---------------------------------------------------------------- invariants

  predicate RowOk(r: Hold, orders: map<Id, SalesOrder>) {
    && r.qty > 0 && r.order in orders
    && (r.active ==> orders[r.order].status != Cancelled)
    && (r.expiresAt.None? <==> orders[r.order].external.Some?)
  }

  ghost predicate RowsOk(rs: seq<Hold>, orders: map<Id, SalesOrder>) {
    forall i :: 0 <= i < |rs| ==> RowOk(rs[i], orders)
  }

  /** An imported order is confirmed, for good. */
  ghost predicate HeadsOk(orders: map<Id, SalesOrder>) {
    forall o :: o in orders && orders[o].external.Some? ==> orders[o].status == Confirmed
  }

  /** The reserved bucket holds at least what active reservations claim. */
  ghost predicate Covered(ms: seq<Movement>, rs: seq<Hold>) {
    forall v, l :: Fold(ms, Bucket(v, l, Reserved)) >= ActiveQty(rs, v, l)
  }

  /**
   * What one order has reserved and released: nothing released unless cancelled, then exactly what
   * was reserved; while it waits for payment its active rows are what it reserved.
   */
  ghost predicate OrderAt(ms: seq<Movement>, rs: seq<Hold>, orders: map<Id, SalesOrder>, o: Id, v: Id, l: Id) {
    var reserved, released := OrderQty(ms, MovementType.Reservation, o, v, l), OrderQty(ms, Release, o, v, l);
    if o !in orders then reserved == 0 && released == 0
    else if orders[o].status == Cancelled then released == reserved
    else released == 0 && (orders[o].status == PendingPayment ==> ActiveOf(rs, o, v, l) == reserved)
  }

  ghost predicate OrdersAt(ms: seq<Movement>, rs: seq<Hold>, orders: map<Id, SalesOrder>) {
    forall o, v, l :: OrderAt(ms, rs, orders, o, v, l)
  }

  ghost predicate OrdersSound(t: Tables) {
    && RowsOk(t.reservations, t.orders) && HeadsOk(t.orders)
    && Covered(t.stock.movements, t.reservations)
    && OrdersAt(t.stock.movements, t.reservations, t.orders)
  }

  // ---------------------------------------------------------------- placing an order

  lemma {:induction false} NoRowsNoStock(rs: seq<Hold>, orders: map<Id, SalesOrder>, o: Id, v: Id, l: Id)
    requires RowsOk(rs, orders) && o !in orders
    ensures ActiveOf(rs, o, v, l) == 0
  {
    if rs != [] {
      var front := rs[..|rs| - 1];
      assert forall i :: 0 <= i < |front| ==> front[i] == rs[i];
      NoRowsNoStock(front, orders, o, v, l);
    }
  }

  /** The header of a new order holds nothing yet. */
  lemma HeadKeepsOrders(t: Tables, o: Id, head: SalesOrder)
    requires OrdersSound(t) && o !in t.orders && head.status != Cancelled
    requires head.external.Some? ==> head.status == Confirmed
    ensures OrdersSound(t.(orders := t.orders[o := head]))
  {
    hide OrderQty, ActiveOf, ActiveQty, Fold;
    var ms, rs, after := t.stock.movements, t.reservations, t.orders[o := head];
    forall p, v, l ensures OrderAt(ms, rs, after, p, v, l) {
      assert OrderAt(ms, rs, t.orders, p, v, l);
      NoRowsNoStock(rs, t.orders, o, v, l);
    }
    forall i | 0 <= i < |rs| ensures RowOk(rs[i], after) {
      assert RowOk(rs[i], t.orders);
    }
  }

  lemma ReserveCovered(ms: seq<Movement>, rs: seq<Hold>, m: Movement, r: Hold)
    requires Covered(ms, rs) && r.active
    requires m.from.Some? && m.from.value.state != StockState.Reserved
    requires m.to == Some(BucketRef(r.location, StockState.Reserved)) && m.variant == r.variant && m.qty == r.qty
    ensures Covered(ms + [m], rs + [r])
  {
    hide ActiveQty, Fold;
    var ms', rs' := ms + [m], rs + [r];
    forall v, l ensures Fold(ms', Bucket(v, l, StockState.Reserved)) >= ActiveQty(rs', v, l) {
      assert Fold(ms, Bucket(v, l, StockState.Reserved)) >= ActiveQty(rs, v, l);
      FoldOne(ms, m, Bucket(v, l, StockState.Reserved));
      ActivePush(rs, r, "", v, l);
    }
  }

  lemma ReserveOrdersAt(ms: seq<Movement>, rs: seq<Hold>, orders: map<Id, SalesOrder>, m: Movement, r: Hold)
    requires OrdersAt(ms, rs, orders) && r.active && r.order in orders && orders[r.order].status != Cancelled
    requires m.kind == MovementType.Reservation && m.reference == Reference("order", r.order)
    requires m.from.Some? && m.from.value.location == r.location && m.variant == r.variant && m.qty == r.qty
    ensures OrdersAt(ms + [m], rs + [r], orders)
  {
    hide OrderQty, ActiveOf;
    var ms', rs' := ms + [m], rs + [r];
    forall o, v, l ensures OrderAt(ms', rs', orders, o, v, l) {
      assert OrderAt(ms, rs, orders, o, v, l);
      OrderQtyPush(ms, m, MovementType.Reservation, o, v, l);
      OrderQtyPush(ms, m, Release, o, v, l);
      ActivePush(rs, r, o, v, l);
    }
  }

  ghost predicate Sound(shop: Shop, t: Tables) {
    UnitsSound(shop, t) && OrdersSound(t)
  }

  lemma ReserveLineKeeps(shop: Shop, t: Tables, order: Id, site: Id, line: OrderLine, expiresAt: Option<int>, id: Id)
    requires Sound(shop, t) && order in t.orders && t.orders[order].status != Cancelled
    requires expiresAt.None? <==> t.orders[order].external.Some?
    requires Settle(t, ReservationOf(order, site, line, id)).Ok?
    ensures var posted := Settle(t, ReservationOf(order, site, line, id)).value;
      Sound(shop, posted.(reservations := posted.reservations + [Hold(order, line.variant, site, line.qty, true, expiresAt)]))
  {
    hide OrderQty, ActiveOf, ActiveQty, Fold, UnitsSound, Settle, Covered, OrdersAt, LedgerOk;
    var m := ReservationOf(order, site, line, id);
    var r := Hold(order, line.variant, site, line.qty, true, expiresAt);
    assert LedgerOk(t.stock) by { SoundLedger(shop, t); }
    SettleEffect(t, m);
    PlainSettleKeeps(shop, t, m);
    ReserveCovered(t.stock.movements, t.reservations, m, r);
    ReserveOrdersAt(t.stock.movements, t.reservations, t.orders, m, r);
    var posted := Settle(t, m).value;
    SameUnits(shop, posted, posted.(reservations := posted.reservations + [r]));
  }

  lemma SoundLedger(shop: Shop, t: Tables)
    requires UnitsSound(shop, t)
    ensures LedgerOk(t.stock)
  {
  }

  /** Units, buckets and transfers do not depend on orders, reservations or approvals. */
  lemma SameUnits(shop: Shop, t: Tables, t': Tables)
    requires UnitsSound(shop, t) && t'.stock == t.stock && t'.units == t.units && t'.transfers == t.transfers
    ensures UnitsSound(shop, t')
  {
  }

  lemma {:induction false} ReserveLinesKeep(shop: Shop, t: Tables, order: Id, site: Id, lines: seq<OrderLine>,
                                            expiresAt: Option<int>, lineId: nat -> Id)
    requires Sound(shop, t) && order in t.orders && t.orders[order].status != Cancelled
    requires expiresAt.None? <==> t.orders[order].external.Some?
    requires ReserveLines(t, order, site, lines, expiresAt, lineId).Ok?
    ensures var r := ReserveLines(t, order, site, lines, expiresAt, lineId).value;
      Sound(shop, r) && r.orders == t.orders
  {
    hide Sound;
    if lines != [] {
      ReserveLinesKeep(shop, t, order, site, lines[..|lines| - 1], expiresAt, lineId);
      var done := ReserveLines(t, order, site, lines[..|lines| - 1], expiresAt, lineId).value;
      ReserveLineKeeps(shop, done, order, site, lines[|lines| - 1], expiresAt, lineId(|lines| - 1));
    }
  }

  /** A web checkout keeps every invariant. */
  lemma CheckedOutKeeps(shop: Shop, t: Tables, order: Id, lines: seq<OrderLine>, confirmed: bool, expiresAt: int, lineId: nat -> Id)
    requires Sound(shop, t) && CheckedOut(shop, t, order, lines, confirmed, expiresAt, lineId).Ok?
    ensures Sound(shop, CheckedOut(shop, t, order, lines, confirmed, expiresAt, lineId).value)
  {
    hide UnitsSound, OrdersSound, ReserveLines, ChooseSite;
    var head := SalesOrder(if confirmed then Confirmed else PendingPayment, None);
    HeadKeepsOrders(t, order, head);
    var staged := t.(orders := t.orders[order := head]);
    SameUnits(shop, t, staged);
    ReserveLinesKeep(shop, staged, order, ChooseSite(t.stock.levels, shop.sites, lines).value, lines, Some(expiresAt), lineId);
  }

  /** An import keeps every invariant, whatever its outcome. */
  lemma ImportKeeps(shop: Shop, t: Tables, channel: Id, order: ChannelOrder, newId: Id, hash: string -> Id)
    requires Sound(shop, t)
    ensures Sound(shop, ImportOne(shop, t, channel, order, newId, hash).0)
  {
    hide UnitsSound, OrdersSound, ReserveLines, ChooseSite, HasImported, Resolved;
    if ImportOne(shop, t, channel, order, newId, hash).1 == Imported {
      var head := SalesOrder(Confirmed, Some((channel, order.external)));
      var lines := Resolved(shop.skus, order.lines).value;
      HeadKeepsOrders(t, newId, head);
      var staged := t.(orders := t.orders[newId := head]);
      SameUnits(shop, t, staged);
      var r := ImportedNew(shop, t, channel, order, newId, hash);
      assert r == ReserveLines(staged, newId, ChooseSite(t.stock.levels, shop.sites, lines).value, lines, None,
                               (i: nat) => hash(ImportLineKey(channel, order.external, i)));
      ReserveLinesKeep(shop, staged, newId, ChooseSite(t.stock.levels, shop.sites, lines).value, lines, None,
                       (i: nat) => hash(ImportLineKey(channel, order.external, i)));
    }
  }

  /** A payment confirms without touching stock. */
  lemma ConfirmKeeps(shop: Shop, t: Tables, order: Id)
    requires Sound(shop, t)
    ensures Sound(shop, PaymentConfirmed(t, order))
  {
    hide OrderQty, ActiveOf, ActiveQty, Fold, UnitsSound;
    var after := PaymentConfirmed(t, order);
    SameUnits(shop, t, after);
    forall o, v, l ensures OrderAt(after.stock.movements, after.reservations, after.orders, o, v, l) {
      assert OrderAt(t.stock.movements, t.reservations, t.orders, o, v, l);
    }
    forall i | 0 <= i < |after.reservations| ensures RowOk(after.reservations[i], after.orders) {
      assert RowOk(t.reservations[i], t.orders);
    }
  }

  // ---------------------------------------------------------------- the janitor

  lemma {:induction false} RetiredAt(rs: seq<Hold>, order: Id, i: nat)
    requires i < |rs|
    ensures Retired(rs, order)[i] == if rs[i].order == order then rs[i].(active := false) else rs[i]
  {
    if i < |rs| - 1 {
      RetiredAt(rs[..|rs| - 1], order, i);
    }
  }

  lemma {:induction false} RetiredRows(rs: seq<Hold>, orders: map<Id, SalesOrder>, order: Id)
    requires RowsOk(rs, orders)
    ensures RowsOk(Retired(rs, order), orders)
  {
    hide Retired;
    var after := Retired(rs, order);
    forall i | 0 <= i < |after| ensures RowOk(after[i], orders) {
      RetiredAt(rs, order, i);
      assert RowOk(rs[i], orders);
    }
  }

  /** Retiring an order's rows only lowers sums, and leaves the rows of other orders alone. */
  lemma {:induction false} RetiredSums(rs: seq<Hold>, order: Id, o: Id, v: Id, l: Id)
    requires forall i :: 0 <= i < |rs| ==> rs[i].qty > 0
    ensures ActiveQty(Retired(rs, order), v, l) <= ActiveQty(rs, v, l)
    ensures o != order ==> ActiveOf(Retired(rs, order), o, v, l) == ActiveOf(rs, o, v, l)
  {
    if rs != [] {
      var front, last := rs[..|rs| - 1], rs[|rs| - 1];
      RetiredSums(front, order, o, v, l);
      ActivePush(front, last, o, v, l);
      ActivePush(Retired(front, order), if last.order == order then last.(active := false) else last, o, v, l);
      assert front + [last] == rs;
    }
  }

  lemma RowQuantities(rs: seq<Hold>, orders: map<Id, SalesOrder>)
    requires RowsOk(rs, orders)
    ensures forall i :: 0 <= i < |rs| ==> rs[i].qty > 0
  {
    forall i | 0 <= i < |rs| ensures rs[i].qty > 0 {
      assert RowOk(rs[i], orders);
    }
  }

  /** Retiring the rows of an order no longer waiting for payment moves no stock and frees no claim twice. */
  lemma {:induction false} RetireKeeps(shop: Shop, t: Tables, order: Id)
    requires Sound(shop, t) && (order in t.orders ==> t.orders[order].status != PendingPayment)
    ensures Sound(shop, t.(reservations := Retired(t.reservations, order)))
  {
    hide OrderQty, ActiveOf, ActiveQty, Fold, UnitsSound, Retired, RowsOk;
    var ms, rs, after := t.stock.movements, t.reservations, Retired(t.reservations, order);
    SameUnits(shop, t, t.(reservations := after));
    RetiredRows(rs, t.orders, order);
    assert forall i :: 0 <= i < |rs| ==> rs[i].qty > 0 by { RowQuantities(rs, t.orders); }
    forall o, v, l ensures OrderAt(ms, after, t.orders, o, v, l) {
      assert OrderAt(ms, rs, t.orders, o, v, l);
      RetiredSums(rs, order, o, v, l);
    }
    forall v, l ensures Fold(ms, Bucket(v, l, StockState.Reserved)) >= ActiveQty(after, v, l) {
      RetiredSums(rs, order, order, v, l);
    }
  }

  /** The order being released: what is released and what its rows still claim add up to what it reserved. */
  ghost predicate ReleasingAt(ms: seq<Movement>, rs: seq<Hold>, orders: map<Id, SalesOrder>, order: Id, o: Id, v: Id, l: Id) {
    if o != order then OrderAt(ms, rs, orders, o, v, l)
    else OrderQty(ms, Release, o, v, l) + ActiveOf(rs, o, v, l) == OrderQty(ms, MovementType.Reservation, o, v, l)
  }

  ghost predicate AllReleasing(ms: seq<Movement>, rs: seq<Hold>, orders: map<Id, SalesOrder>, order: Id) {
    forall o, v, l :: ReleasingAt(ms, rs, orders, order, o, v, l)
  }

  /** A release in progress: the first `n` rows of the order no longer claim stock. */
  ghost predicate Releasing(shop: Shop, t: Tables, order: Id, n: nat) {
    && UnitsSound(shop, t) && order in t.orders && t.orders[order].status == PendingPayment
    && RowsOk(t.reservations, t.orders) && HeadsOk(t.orders)
    && Covered(t.stock.movements, t.reservations)
    && AllReleasing(t.stock.movements, t.reservations, t.orders, order)
    && n <= |t.reservations|
    && (forall i :: 0 <= i < n ==> !(t.reservations[i].order == order && t.reservations[i].active))
  }

  lemma ReleasingStarts(shop: Shop, t: Tables, order: Id)
    requires Sound(shop, t) && order in t.orders && t.orders[order].status == PendingPayment
    ensures Releasing(shop, t, order, 0)
  {
    hide OrderQty, ActiveOf, ActiveQty, Fold, UnitsSound, RowsOk, HeadsOk, Covered;
    forall o, v, l ensures ReleasingAt(t.stock.movements, t.reservations, t.orders, order, o, v, l) {
      assert OrderAt(t.stock.movements, t.reservations, t.orders, o, v, l);
    }
  }

  lemma {:induction false} ActiveRowCounts(rs: seq<Hold>, orders: map<Id, SalesOrder>, i: nat)
    requires RowsOk(rs, orders) && i < |rs| && rs[i].active
    ensures ActiveQty(rs, rs[i].variant, rs[i].location) >= rs[i].qty
  {
    var front := rs[..|rs| - 1];
    assert forall j :: 0 <= j < |front| ==> front[j] == rs[j];
    assert RowOk(rs[|rs| - 1], orders);
    if i < |front| {
      ActiveRowCounts(front, orders, i);
    } else {
      ActiveNonNegative(front, orders, rs[i].variant, rs[i].location);
    }
  }

  lemma {:induction false} ActiveNonNegative(rs: seq<Hold>, orders: map<Id, SalesOrder>, v: Id, l: Id)
    requires RowsOk(rs, orders)
    ensures ActiveQty(rs, v, l) >= 0
  {
    if rs != [] {
      var front := rs[..|rs| - 1];
      assert forall j :: 0 <= j < |front| ==> front[j] == rs[j];
      assert RowOk(rs[|rs| - 1], orders);
      ActiveNonNegative(front, orders, v, l);
    }
  }

  lemma ReleaseShape(r: Hold, id: Id)
    requires r.qty > 0
    ensures ShapeError(ReleaseOf(r, id)).None?
  {
  }

  /** The janitor's debit cannot fail: the reserved bucket covers every active row. */
  lemma ActiveRowCanBeReleased(t: Tables, i: nat, id: Id)
    requires LedgerOk(t.stock) && RowsOk(t.reservations, t.orders) && Covered(t.stock.movements, t.reservations)
    requires i < |t.reservations| && t.reservations[i].active && id !in Ids(t.stock.movements)
    ensures Settle(t, ReleaseOf(t.reservations[i], id)).Ok?
  {
    hide LedgerOk, ActiveQty, Fold, Ids, ShapeError, Settle;
    var r := t.reservations[i];
    assert RowOk(r, t.orders);
    ActiveRowCounts(t.reservations, t.orders, i);
    ReleaseShape(r, id);
    assert Fold(t.stock.movements, Bucket(r.variant, r.location, StockState.Reserved)) >= r.qty;
    CoveredPosts(t, ReleaseOf(r, id));
  }

  lemma ReleaseCovered(ms: seq<Movement>, rs: seq<Hold>, i: nat, id: Id)
    requires Covered(ms, rs) && i < |rs| && rs[i].active
    ensures Covered(ms + [ReleaseOf(rs[i], id)], rs[i := rs[i].(active := false)])
  {
    hide ActiveQty, Fold;
    var m := ReleaseOf(rs[i], id);
    var ms', rs' := ms + [m], rs[i := rs[i].(active := false)];
    forall v, l ensures Fold(ms', Bucket(v, l, StockState.Reserved)) >= ActiveQty(rs', v, l) {
      assert Fold(ms, Bucket(v, l, StockState.Reserved)) >= ActiveQty(rs, v, l);
      FoldOne(ms, m, Bucket(v, l, StockState.Reserved));
      ActiveUpdate(rs, i, "", v, l);
    }
  }

  lemma ReleaseOrders(ms: seq<Movement>, rs: seq<Hold>, orders: map<Id, SalesOrder>, order: Id, i: nat, id: Id)
    requires i < |rs| && rs[i].active && rs[i].order == order
    requires AllReleasing(ms, rs, orders, order)
    ensures AllReleasing(ms + [ReleaseOf(rs[i], id)], rs[i := rs[i].(active := false)], orders, order)
  {
    hide OrderQty, ActiveOf;
    var m := ReleaseOf(rs[i], id);
    var ms', rs' := ms + [m], rs[i := rs[i].(active := false)];
    forall o, v, l ensures ReleasingAt(ms', rs', orders, order, o, v, l) {
      assert ReleasingAt(ms, rs, orders, order, o, v, l);
      OrderQtyPush(ms, m, MovementType.Reservation, o, v, l);
      OrderQtyPush(ms, m, Release, o, v, l);
      ActiveUpdate(rs, i, o, v, l);
    }
  }

  lemma ReleaseActiveKeeps(shop: Shop, t: Tables, order: Id, n: nat, id: Id)
    requires Releasing(shop, t, order, n) && n < |t.reservations|
    requires t.reservations[n].order == order && t.reservations[n].active
    requires Settle(t, ReleaseOf(t.reservations[n], id)).Ok?
    ensures var posted := Settle(t, ReleaseOf(t.reservations[n], id)).value;
      && posted.reservations == t.reservations && posted.orders == t.orders
      && posted.stock.movements == t.stock.movements + [ReleaseOf(t.reservations[n], id)]
      && Releasing(shop, posted.(reservations := posted.reservations[n := t.reservations[n].(active := false)]), order, n + 1)
  {
    hide UnitsSound, Settle, LedgerOk, Covered, AllReleasing;
    var r := t.reservations[n];
    var m := ReleaseOf(r, id);
    assert RowOk(r, t.orders);
    SoundLedger(shop, t);
    SettleEffect(t, m);
    PlainSettleKeeps(shop, t, m);
    ReleaseCovered(t.stock.movements, t.reservations, n, id);
    ReleaseOrders(t.stock.movements, t.reservations, t.orders, order, n, id);
    var posted := Settle(t, m).value;
    var after := posted.(reservations := posted.reservations[n := r.(active := false)]);
    SameUnits(shop, posted, after);
  }

  lemma ReleaseRowKeeps(shop: Shop, t: Tables, order: Id, n: nat, uuid: nat -> Id)
    requires Releasing(shop, t, order, n) && n < |t.reservations| && ReleaseRow(t, order, n, uuid).Ok?
    ensures Releasing(shop, ReleaseRow(t, order, n, uuid).value, order, n + 1)
    ensures ReleaseRow(t, order, n, uuid).value.orders == t.orders
  {
    hide Releasing, Settle;
    var row := t.reservations[n];
    if row.order == order && row.active {
      ReleaseActiveKeeps(shop, t, order, n, NextId(t, uuid));
    } else {
      ReleasingSkips(shop, t, order, n);
    }
  }

  lemma ReleaseRowSucceeds(shop: Shop, t: Tables, order: Id, n: nat, uuid: nat -> Id)
    requires Releasing(shop, t, order, n) && n < |t.reservations| && FreshIds(uuid, t.stock.movements)
    ensures var r := ReleaseRow(t, order, n, uuid);
      r.Ok? && FreshIds(uuid, r.value.stock.movements)
  {
    var row := t.reservations[n];
    if row.order == order && row.active {
      ReleasingLedger(shop, t, order, n);
      hide Settle, LedgerOk, RowsOk, Covered, Ids, Releasing;
      ActiveRowCanBeReleased(t, n, NextId(t, uuid));
      ReleaseActiveKeeps(shop, t, order, n, NextId(t, uuid));
      FreshAfter(uuid, t.stock.movements, ReleaseOf(row, NextId(t, uuid)));
    }
  }

  lemma {:induction false} ReleaseRowsKeep(shop: Shop, t: Tables, order: Id, n: nat, uuid: nat -> Id)
    requires Sound(shop, t) && order in t.orders && t.orders[order].status == PendingPayment
    requires n <= |t.reservations| && ReleaseRows(t, order, n, uuid).Ok?
    ensures Releasing(shop, ReleaseRows(t, order, n, uuid).value, order, n)
    ensures ReleaseRows(t, order, n, uuid).value.orders == t.orders
  {
    hide Sound, Releasing, ReleaseRow;
    if n == 0 {
      ReleasingStarts(shop, t, order);
    } else {
      ReleaseRowsKeep(shop, t, order, n - 1, uuid);
      ReleaseRowKeeps(shop, ReleaseRows(t, order, n - 1, uuid).value, order, n - 1, uuid);
    }
  }

  lemma ReleasingLedger(shop: Shop, t: Tables, order: Id, n: nat)
    requires Releasing(shop, t, order, n)
    ensures LedgerOk(t.stock) && RowsOk(t.reservations, t.orders) && Covered(t.stock.movements, t.reservations)
  {
  }

  lemma ReleasingSkips(shop: Shop, t: Tables, order: Id, n: nat)
    requires Releasing(shop, t, order, n) && n < |t.reservations|
    requires !(t.reservations[n].order == order && t.reservations[n].active)
    ensures Releasing(shop, t, order, n + 1)
  {
    hide UnitsSound, RowsOk, HeadsOk, Covered, AllReleasing;
  }

  lemma {:induction false} NothingActive(rs: seq<Hold>, order: Id, v: Id, l: Id)
    requires forall i :: 0 <= i < |rs| ==> !(rs[i].order == order && rs[i].active)
    ensures ActiveOf(rs, order, v, l) == 0
  {
    if rs != [] {
      NothingActive(rs[..|rs| - 1], order, v, l);
    }
  }

  lemma CancelKeeps(shop: Shop, t: Tables, order: Id)
    requires Releasing(shop, t, order, |t.reservations|)
    ensures Sound(shop, t.(orders := t.orders[order := t.orders[order].(status := Cancelled)]))
  {
    hide OrderQty, ActiveOf, ActiveQty, Fold, UnitsSound;
    var ms, rs := t.stock.movements, t.reservations;
    var after := t.orders[order := t.orders[order].(status := Cancelled)];
    SameUnits(shop, t, t.(orders := after));
    forall o, v, l ensures OrderAt(ms, rs, after, o, v, l) {
      assert ReleasingAt(ms, rs, t.orders, order, o, v, l);
      NothingActive(rs, order, v, l);
    }
    forall i | 0 <= i < |rs| ensures RowOk(rs[i], after) {
      assert RowOk(rs[i], t.orders);
    }
  }

  /** The janitor's transaction keeps every invariant. */
  lemma ExpiredKeeps(shop: Shop, t: Tables, order: Id, uuid: nat -> Id)
    requires Sound(shop, t)
    ensures Sound(shop, Expired(shop, t, order, uuid).0)
  {
    hide Sound, ReleaseRows, Retired;
    if order !in t.orders || t.orders[order].status != PendingPayment {
      RetireKeeps(shop, t, order);
    } else if shop.hasSystemActor && ReleaseRows(t, order, |t.reservations|, uuid).Ok? {
      ReleaseRowsKeep(shop, t, order, |t.reservations|, uuid);
      CancelKeeps(shop, ReleaseRows(t, order, |t.reservations|, uuid).value, order);
    }
  }

  lemma {:induction false} ReleaseRowsSucceeds(shop: Shop, t: Tables, order: Id, n: nat, uuid: nat -> Id)
    requires Sound(shop, t) && order in t.orders && t.orders[order].status == PendingPayment
    requires n <= |t.reservations| && FreshIds(uuid, t.stock.movements)
    ensures var r := ReleaseRows(t, order, n, uuid);
      r.Ok? && FreshIds(uuid, r.value.stock.movements)
  {
    hide Sound, Releasing, ReleaseRow, FreshIds;
    if n > 0 {
      ReleaseRowsSucceeds(shop, t, order, n - 1, uuid);
      ReleaseRowsKeep(shop, t, order, n - 1, uuid);
      ReleaseRowSucceeds(shop, ReleaseRows(t, order, n - 1, uuid).value, order, n - 1, uuid);
    }
  }

  /** The janitor cancels exactly the orders that still wait for payment; its debits never fail. */
  lemma ReleasedIff(shop: Shop, t: Tables, order: Id, uuid: nat -> Id)
    requires Sound(shop, t) && FreshIds(uuid, t.stock.movements)
    ensures Expired(shop, t, order, uuid).1 <==>
      shop.hasSystemActor && order in t.orders && t.orders[order].status == PendingPayment
  {
    hide Sound, ReleaseRows, Retired, FreshIds;
    if shop.hasSystemActor && order in t.orders && t.orders[order].status == PendingPayment {
      ReleaseRowsSucceeds(shop, t, order, |t.reservations|, uuid);
      ReleaseRowsKeep(shop, t, order, |t.reservations|, uuid);
    }
  }
}
