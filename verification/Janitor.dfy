/** The reservation janitor over a batch: which orders are due, and all that happens to them and to the others. */
module Janitor {
  import opened Common
  import opened Ledger
  import opened StockModel
  import opened StockOrders
  import opened StockUnits

  /** Orders with an active reservation past its time, each once. */
  function DueOrders(rs: seq<Hold>, now: int): seq<Id> {
    if rs == [] then []
    else
      var due, r := DueOrders(rs[..|rs| - 1], now), rs[|rs| - 1];
      if r.active && r.expiresAt.Some? && r.expiresAt.value < now && r.order !in due then due + [r.order] else due
  }

  /** The janitor over the first `n` due orders: the tables and the orders it released. */
  function ExpireAll(shop: Shop, t: Tables, due: seq<Id>, n: nat, uuid: nat -> Id): (Tables, seq<Id>)
    requires n <= |due|
  {
    if n == 0 then (t, [])
    else
      var (before, released) := ExpireAll(shop, t, due, n - 1, uuid);
      var (after, cancelled) := Expired(shop, before, due[n - 1], uuid);
      (after, if cancelled then released + [due[n - 1]] else released)
  }

  // ---------------------------------------------------------------- which orders are due

  predicate Overdue(r: Hold, order: Id, now: int) {
    r.order == order && r.active && r.expiresAt.Some? && r.expiresAt.value < now
  }

  /** The order has an active reservation whose time is over. */
  predicate IsDue(rs: seq<Hold>, order: Id, now: int) {
    exists i :: 0 <= i < |rs| && Overdue(rs[i], order, now)
  }

  /** The batch is drawn from exactly the due orders, each once. */
  lemma {:induction false} DueOrdersIff(rs: seq<Hold>, now: int)
    ensures forall o :: o in DueOrders(rs, now) <==> IsDue(rs, o, now)
    ensures NoDuplicates(DueOrders(rs, now))
  {
    if rs != [] {
      var front, r := rs[..|rs| - 1], rs[|rs| - 1];
      DueOrdersIff(front, now);
      forall o ensures IsDue(rs, o, now) <==> IsDue(front, o, now) || Overdue(r, o, now) {
        if IsDue(front, o, now) {
          var i :| 0 <= i < |front| && Overdue(front[i], o, now);
          assert Overdue(rs[i], o, now);
        }
        if i :| 0 <= i < |rs| && Overdue(rs[i], o, now) {
          assert i < |front| ==> Overdue(front[i], o, now);
        }
      }
    }
  }

  // ---------------------------------------------------------------- one order

  /** Rows of other orders are as they were; the order's own rows are as they were or no longer active. */
  ghost predicate OnlyRowsOf(before: seq<Hold>, after: seq<Hold>, order: Id) {
    && |after| == |before|
    && forall k :: 0 <= k < |before| ==>
         after[k] == before[k] || (before[k].order == order && after[k] == before[k].(active := false))
  }

  /** None of the order's first `n` rows is active. */
  ghost predicate NoneActive(rs: seq<Hold>, order: Id, n: nat) {
    forall k :: 0 <= k < n <= |rs| && rs[k].order == order ==> !rs[k].active
  }

  lemma {:induction false} RetiredRows(rs: seq<Hold>, order: Id)
    ensures OnlyRowsOf(rs, Retired(rs, order), order) && NoneActive(Retired(rs, order), order, |rs|)
  {
    if rs != [] {
      RetiredRows(rs[..|rs| - 1], order);
    }
  }

  lemma {:induction false} ReleasedRows(t: Tables, order: Id, n: nat, uuid: nat -> Id)
    requires n <= |t.reservations| && ReleaseRows(t, order, n, uuid).Ok?
    ensures var done := ReleaseRows(t, order, n, uuid).value;
      && OnlyRowsOf(t.reservations, done.reservations, order) && NoneActive(done.reservations, order, n)
      && done.orders == t.orders
  {
    hide Settle;
    if n > 0 {
      ReleasedRows(t, order, n - 1, uuid);
      var before := ReleaseRows(t, order, n - 1, uuid).value;
      if before.reservations[n - 1].order == order && before.reservations[n - 1].active {
        SettleKeepsRest(before, ReleaseOf(before.reservations[n - 1], NextId(before, uuid)));
      }
    }
  }

  lemma SettleKeepsRest(t: Tables, m: Movement)
    requires Settle(t, m).Ok?
    ensures Settle(t, m).value == t.(stock := Settle(t, m).value.stock)
  {
    hide PostTo;
  }

  /** What the janitor's transaction does to the orders and reservations, released or not. */
  lemma ExpiredSays(shop: Shop, t: Tables, order: Id, uuid: nat -> Id)
    ensures var (after, released) := Expired(shop, t, order, uuid);
      && OnlyRowsOf(t.reservations, after.reservations, order)
      && (released ==> order in t.orders && t.orders[order].status == PendingPayment
                       && after.orders == t.orders[order := t.orders[order].(status := Cancelled)])
      && (!released ==> after.orders == t.orders)
      && (released || order !in t.orders || t.orders[order].status != PendingPayment ==>
            NoneActive(after.reservations, order, |t.reservations|))
      && (!released && order in t.orders && t.orders[order].status == PendingPayment ==> after == t)
  {
    hide ReleaseRows, Retired;
    RetiredRows(t.reservations, order);
    if ReleaseRows(t, order, |t.reservations|, uuid).Ok? {
      ReleasedRows(t, order, |t.reservations|, uuid);
    }
  }

  lemma ExpiredKeepsFresh(shop: Shop, t: Tables, order: Id, uuid: nat -> Id)
    requires Sound(shop, t) && FreshIds(uuid, t.stock.movements)
    ensures FreshIds(uuid, Expired(shop, t, order, uuid).0.stock.movements)
  {
    hide Sound, ReleaseRows, Retired, FreshIds;
    if order in t.orders && t.orders[order].status == PendingPayment {
      ReleaseRowsSucceeds(shop, t, order, |t.reservations|, uuid);
    }
  }

  // ---------------------------------------------------------------- a batch

  /** After a batch: what happened to each reservation row. */
  ghost predicate RowsAfter(before: seq<Hold>, after: seq<Hold>, batch: seq<Id>) {
    && |after| == |before|
    && forall k :: 0 <= k < |before| ==>
         after[k] == before[k] || (before[k].order in batch && after[k] == before[k].(active := false))
  }

  /** After a batch: exactly the released orders are cancelled, and they waited for payment. */
  ghost predicate OrdersAfter(before: map<Id, SalesOrder>, after: map<Id, SalesOrder>, released: seq<Id>) {
    && after.Keys == before.Keys
    && (forall o :: o in released ==> o in before && before[o].status == PendingPayment)
    && forall o :: o in before ==> after[o] == if o in released then before[o].(status := Cancelled) else before[o]
  }

  /** Only orders of the batch are released, each once; rows of other orders stay as they are. */
  lemma {:induction false} BatchTouches(shop: Shop, t: Tables, batch: seq<Id>, n: nat, uuid: nat -> Id)
    requires n <= |batch| && NoDuplicates(batch)
    ensures var (after, released) := ExpireAll(shop, t, batch, n, uuid);
      && (forall o :: o in released ==> o in batch[..n])
      && NoDuplicates(released)
      && RowsAfter(t.reservations, after.reservations, batch[..n])
      && OrdersAfter(t.orders, after.orders, released)
  {
    hide Expired;
    if n > 0 {
      BatchTouches(shop, t, batch, n - 1, uuid);
      var (before, released) := ExpireAll(shop, t, batch, n - 1, uuid);
      var order := batch[n - 1];
      ExpiredSays(shop, before, order, uuid);
      assert batch[..n] == batch[..n - 1] + [order];
      assert order !in batch[..n - 1];
    }
  }

  /** In sound tables every order of the batch is settled: released if it waited for payment, its rows retired if not. */
  lemma {:induction false} BatchSettles(shop: Shop, t: Tables, batch: seq<Id>, n: nat, uuid: nat -> Id)
    requires n <= |batch| && NoDuplicates(batch) && Sound(shop, t) && FreshIds(uuid, t.stock.movements)
    ensures var (after, released) := ExpireAll(shop, t, batch, n, uuid);
      && Sound(shop, after) && FreshIds(uuid, after.stock.movements)
      && forall k :: 0 <= k < n ==> SettledIn(shop, t, after, released, batch[k])
  {
    hide Expired, Sound, FreshIds;
    if n > 0 {
      BatchSettles(shop, t, batch, n - 1, uuid);
      BatchTouches(shop, t, batch, n - 1, uuid);
      var (before, released) := ExpireAll(shop, t, batch, n - 1, uuid);
      var order := batch[n - 1];
      assert order !in batch[..n - 1];
      ExpiredKeeps(shop, before, order, uuid);
      ExpiredKeepsFresh(shop, before, order, uuid);
      ReleasedIff(shop, before, order, uuid);
      ExpiredSays(shop, before, order, uuid);
      var (after, all) := ExpireAll(shop, t, batch, n, uuid);
      forall k | 0 <= k < n ensures SettledIn(shop, t, after, all, batch[k]) {
        if k < n - 1 {
          assert SettledIn(shop, t, before, released, batch[k]) && batch[k] != order;
        }
      }
    }
  }

  /** What becomes of one order of the batch. */
  ghost predicate SettledIn(shop: Shop, t: Tables, after: Tables, released: seq<Id>, order: Id) {
    var waiting := order in t.orders && t.orders[order].status == PendingPayment;
    && (order in released <==> waiting && shop.hasSystemActor)
    && (!waiting || shop.hasSystemActor ==> NoneActive(after.reservations, order, |t.reservations|))
    && |after.reservations| == |t.reservations|
  }

  /** The janitor's batch: as many of the due orders as the limit allows. */
  function Batch(rs: seq<Hold>, now: int, limit: nat): seq<Id> {
    var due := DueOrders(rs, now);
    if |due| <= limit then due else due[..limit]
  }

  lemma {:induction false} BatchIsDue(rs: seq<Hold>, now: int, limit: nat)
    ensures NoDuplicates(Batch(rs, now, limit)) && |Batch(rs, now, limit)| <= limit
    ensures forall o :: o in Batch(rs, now, limit) ==> IsDue(rs, o, now)
    ensures |DueOrders(rs, now)| <= limit ==> forall o :: IsDue(rs, o, now) ==> o in Batch(rs, now, limit)
  {
    hide DueOrders, IsDue;
    DueOrdersIff(rs, now);
  }

  /** What a run of the janitor promises of the orders and reservation rows before and after it. */
  ghost predicate JanitorRan(before: Tables, after: Tables, released: seq<Id>, now: int, limit: nat) {
    && NoDuplicates(released) && |released| <= limit
    && (forall o :: o in released ==> IsDue(before.reservations, o, now))
    && OrdersAfter(before.orders, after.orders, released)
    && |after.reservations| == |before.reservations|
    && forall k :: 0 <= k < |before.reservations| ==>
         || after.reservations[k] == before.reservations[k]
         || (IsDue(before.reservations, before.reservations[k].order, now)
             && after.reservations[k] == before.reservations[k].(active := false))
  }

  /** Within its limit it leaves no due order behind. */
  ghost predicate NoneLeft(shop: Shop, before: Tables, after: Tables, released: seq<Id>, now: int) {
    forall o :: IsDue(before.reservations, o, now) ==> SettledIn(shop, before, after, released, o)
  }

  lemma {:induction false} RanSays(shop: Shop, t: Tables, now: int, limit: nat, uuid: nat -> Id)
    ensures var batch := Batch(t.reservations, now, limit);
      var (after, released) := ExpireAll(shop, t, batch, |batch|, uuid);
      && JanitorRan(t, after, released, now, limit)
      && (Sound(shop, t) && FreshIds(uuid, t.stock.movements) && |DueOrders(t.reservations, now)| <= limit
          ==> NoneLeft(shop, t, after, released, now))
  {
    hide Batch, ExpireAll, DueOrders, IsDue, Sound, FreshIds, SettledIn;
    var batch := Batch(t.reservations, now, limit);
    var (after, released) := ExpireAll(shop, t, batch, |batch|, uuid);
    BatchIsDue(t.reservations, now, limit);
    BatchTouches(shop, t, batch, |batch|, uuid);
    assert batch[..|batch|] == batch;
    NoMoreThan(released, batch);
    if Sound(shop, t) && FreshIds(uuid, t.stock.movements) && |DueOrders(t.reservations, now)| <= limit {
      BatchSettles(shop, t, batch, |batch|, uuid);
    }
  }

  /** Distinct members of a list are no more than it has. */
  lemma {:induction false} NoMoreThan(some: seq<Id>, all: seq<Id>)
    requires NoDuplicates(some) && forall x :: x in some ==> x in all
    ensures |some| <= |all|
  {
    if some != [] {
      var last := some[|some| - 1];
      assert last in all;
      var i :| 0 <= i < |all| && all[i] == last;
      var rest := all[..i] + all[i + 1..];
      forall x | x in some[..|some| - 1] ensures x in rest {
        var k :| 0 <= k < |some| - 1 && some[k] == x;
        assert x in all;
        var j :| 0 <= j < |all| && all[j] == x;
        assert j < i ==> rest[j] == x;
        assert j > i ==> rest[j - 1] == x;
      }
      NoMoreThan(some[..|some| - 1], rest);
    }
  }
}
