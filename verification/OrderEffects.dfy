/** What checkouts, imports, releases and adjustments do, and when they happen, over the tables before and after. */
module OrderEffects {
  import opened Common
  import opened Ledger
  import opened StockEffects
  import opened StockModel
  import opened StockOrders
  import opened StockUnits

  // ---------------------------------------------------------------- choosing a site

  /** The site has on hand what each line needs on its own. */
  ghost predicate HasEachLine(levels: map<Bucket, int>, site: Id, lines: seq<OrderLine>) {
    forall i :: 0 <= i < |lines| ==> LevelIn(levels, Bucket(lines[i].variant, site, OnHand)) >= lines[i].qty
  }

  lemma {:induction false} CoversIff(levels: map<Bucket, int>, site: Id, lines: seq<OrderLine>)
    ensures StockModel.Covers(levels, site, lines) <==> HasEachLine(levels, site, lines)
  {
    if lines != [] {
      var front := lines[..|lines| - 1];
      CoversIff(levels, site, front);
      assert forall i :: 0 <= i < |front| ==> front[i] == lines[i];
    }
  }

  /** Site `k` has every line and no site preferred to it has. */
  ghost predicate FirstWith(levels: map<Bucket, int>, sites: seq<Id>, lines: seq<OrderLine>, k: nat) {
    k < |sites| && HasEachLine(levels, sites[k], lines) && forall j :: 0 <= j < k ==> !HasEachLine(levels, sites[j], lines)
  }

  /** The site chosen is the first in order of preference; there is none exactly when no site has every line. */
  lemma {:induction false} ChosenSiteIsFirst(levels: map<Bucket, int>, sites: seq<Id>, lines: seq<OrderLine>)
    ensures match ChooseSite(levels, sites, lines)
      case Some(site) => exists k: nat :: FirstWith(levels, sites, lines, k) && sites[k] == site
      case None => forall k :: 0 <= k < |sites| ==> !HasEachLine(levels, sites[k], lines)
  {
    if sites != [] {
      hide HasEachLine, StockModel.Covers;
      CoversIff(levels, sites[0], lines);
      var rest := sites[1..];
      ChosenSiteIsFirst(levels, rest, lines);
      if StockModel.Covers(levels, sites[0], lines) {
        assert FirstWith(levels, sites, lines, 0);
      } else if ChooseSite(levels, rest, lines).Some? {
        var k: nat :| FirstWith(levels, rest, lines, k) && rest[k] == ChooseSite(levels, rest, lines).value;
        forall j | 0 <= j < k + 1 ensures !HasEachLine(levels, sites[j], lines) {
          assert j > 0 ==> sites[j] == rest[j - 1];
        }
        assert FirstWith(levels, sites, lines, k + 1);
      } else {
        forall k | 0 <= k < |sites| ensures !HasEachLine(levels, sites[k], lines) {
          assert k > 0 ==> sites[k] == rest[k - 1];
        }
      }
    }
  }

  // ---------------------------------------------------------------- reserving

  /** How much of a variant the lines order. */
  function Ordered(lines: seq<OrderLine>, variant: Id): int {
    if lines == [] then 0
    else
      var last := lines[|lines| - 1];
      Ordered(lines[..|lines| - 1], variant) + (if last.variant == variant then last.qty else 0)
  }

  /** From on hand to reserved, at one site. */
  function ReserveChange(site: Id, lines: seq<OrderLine>): Bucket -> int {
    (b: Bucket) => (if b.location == site && b.state == StockState.Reserved then Ordered(lines, b.variant) else 0)
                   - (if b.location == site && b.state == OnHand then Ordered(lines, b.variant) else 0)
  }

  /** The rows before, and behind them an active row for each line. */
  ghost predicate Held(before: seq<Hold>, after: seq<Hold>, order: Id, site: Id, lines: seq<OrderLine>, expiresAt: Option<int>) {
    && |after| == |before| + |lines| && after[..|before|] == before
    && forall k :: 0 <= k < |lines| ==> after[|before| + k] == Hold(order, lines[k].variant, site, lines[k].qty, true, expiresAt)
  }

  /** Nothing but stock and reservations changed, and the ledger only grew. */
  predicate OnlyStockAndHolds(before: Tables, after: Tables) {
    && after == before.(stock := after.stock, reservations := after.reservations)
    && before.stock.movements <= after.stock.movements
  }

  lemma {:induction false} ReserveSays(t: Tables, order: Id, site: Id, lines: seq<OrderLine>, expiresAt: Option<int>, lineId: nat -> Id)
    requires ReserveLines(t, order, site, lines, expiresAt, lineId).Ok?
    ensures var after := ReserveLines(t, order, site, lines, expiresAt, lineId).value;
      && OnlyStockAndHolds(t, after) && Held(t.reservations, after.reservations, order, site, lines, expiresAt)
      && Shifted(t, after, ReserveChange(site, lines))
  {
    hide Settle, LevelIn, ReserveChange, Shifted;
    if lines == [] {
      NothingReserved(t, site);
    } else {
      var front, last := lines[..|lines| - 1], lines[|lines| - 1];
      ReserveSays(t, order, site, front, expiresAt, lineId);
      var done := ReserveLines(t, order, site, front, expiresAt, lineId).value;
      var m := ReservationOf(order, site, last, lineId(|lines| - 1));
      SettleSays(done, m);
      ReserveShiftsOn(t, done, Settle(done, m).value, order, site, lines, lineId(|lines| - 1));
    }
  }

  lemma NothingReserved(t: Tables, site: Id)
    ensures Shifted(t, t, ReserveChange(site, []))
  {
    hide LevelIn;
  }

  lemma ReserveShiftsOn(t: Tables, done: Tables, posted: Tables, order: Id, site: Id, lines: seq<OrderLine>, id: Id)
    requires lines != [] && Shifted(t, done, ReserveChange(site, lines[..|lines| - 1]))
    requires Settle(done, ReservationOf(order, site, lines[|lines| - 1], id)) == Ok(posted)
    ensures forall after: Tables :: after.stock == posted.stock ==> Shifted(t, after, ReserveChange(site, lines))
  {
    hide Settle, LevelIn;
    SettleSays(done, ReservationOf(order, site, lines[|lines| - 1], id));
    forall b ensures LevelIn(posted.stock.levels, b) == LevelIn(t.stock.levels, b) + ReserveChange(site, lines)(b) {
      assert LevelIn(done.stock.levels, b) == LevelIn(t.stock.levels, b) + ReserveChange(site, lines[..|lines| - 1])(b);
    }
  }

  /** Ids for so many lines: new to the ledger, and different from each other. */
  ghost predicate FreshLines(lineId: nat -> Id, ms: seq<Movement>, done: nat, n: nat) {
    && (forall i: nat :: done <= i < n ==> lineId(i) !in Ids(ms))
    && (forall i: nat, j: nat :: i < j < n ==> lineId(i) != lineId(j))
  }

  /** Every line asks for something, and all of them together are on hand. */
  ghost predicate Reservable(t: Tables, site: Id, lines: seq<OrderLine>) {
    && (forall i :: 0 <= i < |lines| ==> lines[i].qty > 0)
    && (forall v :: Ordered(lines, v) <= LevelIn(t.stock.levels, Bucket(v, site, OnHand)))
  }

  lemma ReservationShape(order: Id, site: Id, line: OrderLine, id: Id)
    ensures ShapeError(ReservationOf(order, site, line, id)).None? <==> line.qty > 0
  {
  }

  lemma ReserveOneIff(t: Tables, order: Id, site: Id, line: OrderLine, id: Id)
    requires LedgerOk(t.stock) && id !in Ids(t.stock.movements)
    ensures var r := Settle(t, ReservationOf(order, site, line, id));
      && (r.Ok? <==> 0 < line.qty <= LevelIn(t.stock.levels, Bucket(line.variant, site, OnHand)))
      && (r.Ok? ==> LedgerOk(r.value.stock) && r.value.stock.movements == t.stock.movements + [ReservationOf(order, site, line, id)])
  {
    hide ShapeError, Fold, Ids, Moved;
    var m := ReservationOf(order, site, line, id);
    ReservationShape(order, site, line, id);
    assert LevelIn(t.stock.levels, FromBucket(m)) == Fold(t.stock.movements, FromBucket(m));
    if Settle(t, m).Ok? {
      SettleEffect(t, m);
    }
  }

  lemma OneMoreReservableIff(t: Tables, site: Id, lines: seq<OrderLine>)
    requires lines != []
    ensures var front, last := lines[..|lines| - 1], lines[|lines| - 1];
      Reservable(t, site, lines) <==>
        && Reservable(t, site, front)
        && 0 < last.qty <= LevelIn(t.stock.levels, Bucket(last.variant, site, OnHand)) - Ordered(front, last.variant)
  {
    hide LevelIn;
    var front, last := lines[..|lines| - 1], lines[|lines| - 1];
    assert lines == front + [last];
    if Reservable(t, site, lines) {
      forall v ensures Ordered(front, v) <= LevelIn(t.stock.levels, Bucket(v, site, OnHand)) {
        assert Ordered(lines, v) <= LevelIn(t.stock.levels, Bucket(v, site, OnHand));
        assert last.qty > 0;
      }
      assert Ordered(lines, last.variant) <= LevelIn(t.stock.levels, Bucket(last.variant, site, OnHand));
    } else if Reservable(t, site, front)
        && 0 < last.qty <= LevelIn(t.stock.levels, Bucket(last.variant, site, OnHand)) - Ordered(front, last.variant) {
      forall v ensures Ordered(lines, v) <= LevelIn(t.stock.levels, Bucket(v, site, OnHand)) {
        assert Ordered(front, v) <= LevelIn(t.stock.levels, Bucket(v, site, OnHand));
      }
    }
  }

  lemma {:induction false} ReserveIff(t: Tables, order: Id, site: Id, lines: seq<OrderLine>, expiresAt: Option<int>, lineId: nat -> Id, n: nat)
    requires LedgerOk(t.stock) && FreshLines(lineId, t.stock.movements, 0, n) && |lines| <= n
    ensures var r := ReserveLines(t, order, site, lines, expiresAt, lineId);
      && (r.Ok? <==> Reservable(t, site, lines))
      && (r.Ok? ==> LedgerOk(r.value.stock) && FreshLines(lineId, r.value.stock.movements, |lines|, n))
  {
    hide LevelIn, LedgerOk, Settle;
    if lines == [] {
      forall v ensures Ordered(lines, v) <= LevelIn(t.stock.levels, Bucket(v, site, OnHand)) {
        StockNotNegative(t, Bucket(v, site, OnHand));
      }
    } else {
      hide Reservable;
      var front, last := lines[..|lines| - 1], lines[|lines| - 1];
      ReserveIff(t, order, site, front, expiresAt, lineId, n);
      OneMoreReservableIff(t, site, lines);
      var r := ReserveLines(t, order, site, front, expiresAt, lineId);
      if r.Ok? {
        ReserveSays(t, order, site, front, expiresAt, lineId);
        var b := Bucket(last.variant, site, OnHand);
        assert LevelIn(r.value.stock.levels, b) == LevelIn(t.stock.levels, b) + ReserveChange(site, front)(b);
        ReserveOneIff(r.value, order, site, last, lineId(|lines| - 1));
        var ms, m := r.value.stock.movements, ReservationOf(order, site, last, lineId(|lines| - 1));
        assert (ms + [m])[..|ms|] == ms;
      }
    }
  }

  lemma StockNotNegative(t: Tables, b: Bucket)
    requires LedgerOk(t.stock)
    ensures LevelIn(t.stock.levels, b) >= 0
  {
    hide Fold;
    assert LevelIn(t.stock.levels, b) == Fold(t.stock.movements, b) >= 0;
  }

  // ---------------------------------------------------------------- checking out

  /** An order placed at a site: its header, its rows, and its stock set aside; nothing else. */
  ghost predicate PlacedAt(t: Tables, after: Tables, order: Id, head: SalesOrder, site: Id, lines: seq<OrderLine>, expiresAt: Option<int>) {
    && order !in t.orders && after.orders == t.orders[order := head]
    && Held(t.reservations, after.reservations, order, site, lines, expiresAt)
    && Shifted(t, after, ReserveChange(site, lines))
    && after == t.(stock := after.stock, orders := after.orders, reservations := after.reservations)
    && t.stock.movements <= after.stock.movements
  }

  /** A checkout takes place at the first site that has every line, and is held until it expires. */
  lemma CheckoutSays(shop: Shop, t: Tables, order: Id, lines: seq<OrderLine>, confirmed: bool, expiresAt: int, lineId: nat -> Id)
    requires CheckedOut(shop, t, order, lines, confirmed, expiresAt, lineId).Ok?
    ensures exists k: nat ::
      && FirstWith(t.stock.levels, shop.sites, lines, k)
      && PlacedAt(t, CheckedOut(shop, t, order, lines, confirmed, expiresAt, lineId).value, order,
                  SalesOrder(if confirmed then Confirmed else PendingPayment, None), shop.sites[k], lines, Some(expiresAt))
  {
    hide ReserveLines, ChooseSite, HasEachLine, LevelIn, Held;
    ChosenSiteIsFirst(t.stock.levels, shop.sites, lines);
    var site := ChooseSite(t.stock.levels, shop.sites, lines).value;
    var k: nat :| FirstWith(t.stock.levels, shop.sites, lines, k) && shop.sites[k] == site;
    var head := SalesOrder(if confirmed then Confirmed else PendingPayment, None);
    ReserveSays(t.(orders := t.orders[order := head]), order, site, lines, Some(expiresAt), lineId);
    assert PlacedAt(t, CheckedOut(shop, t, order, lines, confirmed, expiresAt, lineId).value, order, head, shop.sites[k], lines, Some(expiresAt));
  }

  /**
   * A checkout is accepted exactly when the tenant can act, the order is new, some site has every line,
   * and the first such site has all lines together.
   */
  lemma CheckoutAcceptedIff(shop: Shop, t: Tables, order: Id, lines: seq<OrderLine>, confirmed: bool, expiresAt: int, lineId: nat -> Id)
    requires LedgerOk(t.stock) && FreshLines(lineId, t.stock.movements, 0, |lines|)
    ensures CheckedOut(shop, t, order, lines, confirmed, expiresAt, lineId).Ok? <==>
      && shop.hasSystemActor && order !in t.orders
      && exists k: nat :: FirstWith(t.stock.levels, shop.sites, lines, k) && Reservable(t, shop.sites[k], lines)
  {
    hide ReserveLines, ChooseSite, HasEachLine, LevelIn, LedgerOk, FreshLines, Ordered;
    ChosenSiteIsFirst(t.stock.levels, shop.sites, lines);
    var found := ChooseSite(t.stock.levels, shop.sites, lines);
    if found.Some? && order !in t.orders {
      var k: nat :| FirstWith(t.stock.levels, shop.sites, lines, k) && shop.sites[k] == found.value;
      var head := SalesOrder(if confirmed then Confirmed else PendingPayment, None);
      ReserveIff(t.(orders := t.orders[order := head]), order, found.value, lines, Some(expiresAt), lineId, |lines|);
      forall j: nat | FirstWith(t.stock.levels, shop.sites, lines, j) ensures j == k {
      }
    }
  }

  // ---------------------------------------------------------------- importing

  /** The lines of the channel order, each SKU replaced by the variant it names. */
  ghost predicate ResolvedTo(skus: map<string, Id>, lines: seq<ChannelLine>, resolved: seq<OrderLine>) {
    && |resolved| == |lines|
    && forall i :: 0 <= i < |lines| ==> lines[i].sku in skus && resolved[i] == OrderLine(skus[lines[i].sku], lines[i].qty)
  }

  lemma {:induction false} ResolvedIff(skus: map<string, Id>, lines: seq<ChannelLine>)
    ensures Resolved(skus, lines).Some? <==> forall i :: 0 <= i < |lines| ==> lines[i].sku in skus
    ensures Resolved(skus, lines).Some? ==> ResolvedTo(skus, lines, Resolved(skus, lines).value)
  {
    if lines != [] {
      var front := lines[..|lines| - 1];
      ResolvedIff(skus, front);
      assert forall i :: 0 <= i < |front| ==> front[i] == lines[i];
    }
  }

  /** The order was imported from this channel before. */
  ghost predicate WasImported(t: Tables, channel: Id, external: Id) {
    exists o :: o in t.orders && t.orders[o].external == Some((channel, external))
  }

  ghost predicate ImportedAt(shop: Shop, t: Tables, after: Tables, channel: Id, order: ChannelOrder, newId: Id, k: nat, lines: seq<OrderLine>) {
    && ResolvedTo(shop.skus, order.lines, lines) && FirstWith(t.stock.levels, shop.sites, lines, k)
    && PlacedAt(t, after, newId, SalesOrder(Confirmed, Some((channel, order.external))), shop.sites[k], lines, None)
  }

  /** What an import does, whatever its outcome: only a new order changes anything, and its stock is held without an end. */
  lemma ImportSays(shop: Shop, t: Tables, channel: Id, order: ChannelOrder, newId: Id, hash: string -> Id)
    ensures var (after, outcome) := ImportOne(shop, t, channel, order, newId, hash);
      && (outcome == Duplicate <==> WasImported(t, channel, order.external))
      && (!outcome.Imported? ==> after == t)
      && (outcome.Imported? ==>
            && order.lines != [] && shop.hasSystemActor
            && exists k: nat, lines :: ImportedAt(shop, t, after, channel, order, newId, k, lines))
      && (outcome.Failed? ==> match outcome.error
            case NoLines => order.lines == []
            case NoSystemActor => !shop.hasSystemActor
            case UnknownSku => exists i :: 0 <= i < |order.lines| && order.lines[i].sku !in shop.skus
            case InsufficientEverywhere => forall lines, k :: ResolvedTo(shop.skus, order.lines, lines) && 0 <= k < |shop.sites| ==>
              !HasEachLine(t.stock.levels, shop.sites[k], lines)
            case ConstraintViolated => newId in t.orders
            case Refused(_) => true
            case _ => false)
  {
    hide ReserveLines, ChooseSite, HasEachLine, LevelIn, Held, Resolved;
    ResolvedIff(shop.skus, order.lines);
    var resolved := Resolved(shop.skus, order.lines);
    if resolved.Some? {
      var lines := resolved.value;
      forall other | ResolvedTo(shop.skus, order.lines, other) ensures other == lines {
      }
      ChosenSiteIsFirst(t.stock.levels, shop.sites, lines);
      var site := ChooseSite(t.stock.levels, shop.sites, lines);
      var head := SalesOrder(Confirmed, Some((channel, order.external)));
      var lineId := (i: nat) => hash(ImportLineKey(channel, order.external, i));
      if site.Some? {
        var staged := t.(orders := t.orders[newId := head]);
        OnlyRefusals(staged, newId, site.value, lines, None, lineId);
        if ReserveLines(staged, newId, site.value, lines, None, lineId).Ok? && newId !in t.orders {
          ReserveSays(staged, newId, site.value, lines, None, lineId);
          var k: nat :| FirstWith(t.stock.levels, shop.sites, lines, k) && shop.sites[k] == site.value;
          var after := ReserveLines(staged, newId, site.value, lines, None, lineId).value;
          assert ImportedAt(shop, t, after, channel, order, newId, k, lines);
        }
      }
    }
  }

  /** Reserving fails only because the ledger refuses a movement. */
  lemma {:induction false} OnlyRefusals(t: Tables, order: Id, site: Id, lines: seq<OrderLine>, expiresAt: Option<int>, lineId: nat -> Id)
    ensures var r := ReserveLines(t, order, site, lines, expiresAt, lineId); r.Err? ==> r.error.Refused?
  {
    hide ShapeError, Moved, Ids;
    if lines != [] {
      OnlyRefusals(t, order, site, lines[..|lines| - 1], expiresAt, lineId);
    }
  }

  /** A payment confirms the order it is for while that waits, and nothing else. */
  lemma PaymentSays(t: Tables, order: Id)
    ensures var after := PaymentConfirmed(t, order);
      && after == t.(orders := after.orders) && after.orders.Keys == t.orders.Keys
      && forall o :: o in t.orders ==>
           after.orders[o] == if o == order && t.orders[o].status == PendingPayment then t.orders[o].(status := Confirmed) else t.orders[o]
  {
  }

  // ---------------------------------------------------------------- releasing

  /** Back from reserved to on hand: what the order's active rows among the first `n` claim. */
  function ReleaseChange(rs: seq<Hold>, order: Id, n: nat): Bucket -> int
    requires n <= |rs|
  {
    (b: Bucket) => (if b.state == OnHand then ActiveOf(rs[..n], order, b.variant, b.location) else 0)
                   - (if b.state == StockState.Reserved then ActiveOf(rs[..n], order, b.variant, b.location) else 0)
  }

  lemma {:induction false} ReleaseRowsSay(t: Tables, order: Id, n: nat, uuid: nat -> Id)
    requires n <= |t.reservations| && ReleaseRows(t, order, n, uuid).Ok?
    ensures var after := ReleaseRows(t, order, n, uuid).value;
      && OnlyStockAndHolds(t, after) && Shifted(t, after, ReleaseChange(t.reservations, order, n))
      && (forall i :: n <= i < |t.reservations| ==> after.reservations[i] == t.reservations[i])
  {
    hide Settle, LevelIn, ReleaseChange, Shifted;
    if n == 0 {
      NothingReleased(t, order);
    } else {
      ReleaseRowsSay(t, order, n - 1, uuid);
      var done := ReleaseRows(t, order, n - 1, uuid).value;
      var row := t.reservations[n - 1];
      assert done.reservations[n - 1] == row;
      if row.order == order && row.active {
        SettleSays(done, ReleaseOf(row, NextId(done, uuid)));
      }
      ReleaseShiftsOn(t, done, order, n, NextId(done, uuid), ReleaseRows(t, order, n, uuid).value);
    }
  }

  lemma NothingReleased(t: Tables, order: Id)
    ensures Shifted(t, t, ReleaseChange(t.reservations, order, 0))
  {
    hide LevelIn;
    assert t.reservations[..0] == [];
  }

  lemma ReleaseShiftsOn(t: Tables, done: Tables, order: Id, n: nat, id: Id, after: Tables)
    requires 0 < n <= |t.reservations| && Shifted(t, done, ReleaseChange(t.reservations, order, n - 1))
    requires var row := t.reservations[n - 1];
      if row.order == order && row.active then
        Settle(done, ReleaseOf(row, id)).Ok? && Settle(done, ReleaseOf(row, id)).value.stock == after.stock
      else after.stock == done.stock
    ensures Shifted(t, after, ReleaseChange(t.reservations, order, n))
  {
    hide Settle, LevelIn;
    var row, rs := t.reservations[n - 1], t.reservations;
    if row.order == order && row.active {
      SettleSays(done, ReleaseOf(row, id));
    }
    forall b ensures LevelIn(after.stock.levels, b) == LevelIn(t.stock.levels, b) + ReleaseChange(rs, order, n)(b) {
      assert LevelIn(done.stock.levels, b) == LevelIn(t.stock.levels, b) + ReleaseChange(rs, order, n - 1)(b);
      ActiveOneMore(rs, order, n, b.variant, b.location);
    }
  }

  lemma {:induction false} ActiveOneMore(rs: seq<Hold>, order: Id, n: nat, v: Id, l: Id)
    requires 0 < n <= |rs|
    ensures var row := rs[n - 1];
      ActiveOf(rs[..n], order, v, l) == ActiveOf(rs[..n - 1], order, v, l)
        + (if row.active && row.order == order && row.variant == v && row.location == l then row.qty else 0)
  {
    assert rs[..n][..n - 1] == rs[..n - 1];
  }

  /** A released order gives back exactly what its active rows hold; nothing else moves stock. */
  lemma ExpirySays(shop: Shop, t: Tables, order: Id, uuid: nat -> Id)
    ensures var (after, released) := Expired(shop, t, order, uuid);
      if released then Shifted(t, after, ReleaseChange(t.reservations, order, |t.reservations|)) else after.stock == t.stock
  {
    hide ReleaseRows, Retired, LevelIn;
    if ReleaseRows(t, order, |t.reservations|, uuid).Ok? {
      ReleaseRowsSay(t, order, |t.reservations|, uuid);
    }
  }

  // ---------------------------------------------------------------- adjustments

  /** A request is recorded, undecided, exactly for a positive countable quantity of an untracked variant taken off. */
  lemma RequestedIff(shop: Shop, t: Tables, id: Id, request: AdjustmentRequest, found: bool)
    ensures Requested(shop, t, id, request, found).Ok? <==>
      && request.qty > 0 && request.from in {OnHand, Damaged, ReturnedPending} && !found
      && request.variant in shop.tracking && !shop.tracking[request.variant] && id !in t.approvals
    ensures Requested(shop, t, id, request, found).Ok? ==>
      Requested(shop, t, id, request, found).value == t.(approvals := t.approvals[id := Approval(request, Undecided)])
  {
  }

  /** A decision is recorded once, by somebody other than who asked. */
  lemma DecidedIff(t: Tables, id: Id, decider: Id, approve: bool)
    ensures Decided(t, id, decider, approve).Ok? <==>
      id in t.approvals && t.approvals[id].decision == Undecided && decider != t.approvals[id].request.requestedBy
    ensures Decided(t, id, decider, approve).Ok? ==>
      Decided(t, id, decider, approve).value == t.(approvals :=
        t.approvals[id := Approval(t.approvals[id].request, if approve then Approved(decider) else Declined)])
  {
  }

  lemma {:induction false} SpentIff(ms: seq<Movement>, approval: Id)
    ensures Spent(ms, approval) <==> exists i :: 0 <= i < |ms| && ms[i].approval == Some(approval)
  {
    if ms != [] {
      var front := ms[..|ms| - 1];
      SpentIff(front, approval);
      assert forall i :: 0 <= i < |front| ==> front[i] == ms[i];
    }
  }

  /** The approved quantity leaves the bucket asked for, by one ledger row that carries the approval; nothing else changes. */
  ghost predicate TakenOff(t: Tables, after: Tables, approval: Id, a: AdjustmentRequest) {
    && after == t.(stock := after.stock)
    && |after.stock.movements| == |t.stock.movements| + 1 && t.stock.movements <= after.stock.movements
    && (var m := after.stock.movements[|t.stock.movements|];
        m.approval == Some(approval) && m.kind == (if a.writeOff then WriteOff else MovementType.Adjustment))
    && (forall b :: LevelIn(after.stock.levels, b) == LevelIn(t.stock.levels, b)
          - (if b == Bucket(a.variant, a.location, a.from) then a.qty else 0))
  }

  /** An adjustment posts exactly what was approved by a second person, has not been posted, and is there to be taken off. */
  lemma AdjustedIff(t: Tables, approval: Id, uuid: nat -> Id)
    requires LedgerOk(t.stock) && FreshIds(uuid, t.stock.movements)
    requires approval in t.approvals ==> t.approvals[approval].request.from in {OnHand, Damaged, ReturnedPending}
    ensures Adjusted(t, approval, uuid).Ok? <==>
      && approval in t.approvals && t.approvals[approval].decision.Approved?
      && t.approvals[approval].decision.decider != t.approvals[approval].request.requestedBy
      && (forall i :: 0 <= i < |t.stock.movements| ==> t.stock.movements[i].approval != Some(approval))
      && var a := t.approvals[approval].request;
         0 < a.qty <= LevelIn(t.stock.levels, Bucket(a.variant, a.location, a.from))
    ensures Adjusted(t, approval, uuid).Ok? ==>
      TakenOff(t, Adjusted(t, approval, uuid).value, approval, t.approvals[approval].request)
  {
    hide ShapeError, Fold, Ids, Moved, Spent, LevelIn;
    SpentIff(t.stock.movements, approval);
    if approval in t.approvals {
      var a := t.approvals[approval].request;
      var m := AdjustmentOf(approval, a, NextId(t, uuid));
      AdjustmentShape(approval, a, NextId(t, uuid));
      FreshIsNew(uuid, t.stock.movements);
      assert LevelIn(t.stock.levels, FromBucket(m)) == Fold(t.stock.movements, FromBucket(m));
      PostRefinesLedger(t.stock, m);
      if Settle(t, m).Ok? {
        SettleSays(t, m);
      }
    }
  }

  lemma AdjustmentShape(approval: Id, a: AdjustmentRequest, id: Id)
    requires a.from in {OnHand, Damaged, ReturnedPending}
    ensures ShapeError(AdjustmentOf(approval, a, id)).None? <==> a.qty > 0
  {
  }
}
