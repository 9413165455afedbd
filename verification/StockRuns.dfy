/** Every run of the stock operations, from empty tables: what holds in each state it reaches. */
module StockRuns {
  import opened Common
  import opened Digits
  import opened Ledger
  import opened Serialized
  import opened StockModel
  import opened StockUnits
  import opened StockTransfers
  import opened StockOrders

  // ---------------------------------------------------------------- operations that leave orders alone

  /** The movements posted on an approval. */
  function Stamped(ms: seq<Movement>): seq<Movement> {
    if ms == [] then []
    else
      var front, m := Stamped(ms[..|ms| - 1]), ms[|ms| - 1];
      if m.approval.Some? then front + [m] else front
  }

  ghost predicate SameHolds(t: Tables, t': Tables) {
    && t'.orders == t.orders && t'.reservations == t.reservations
    && (forall v, l :: SameReserved(t, t', v, l))
    && (forall o, v, l :: SameOrderQty(t, t', o, v, l))
  }

  predicate SameReserved(t: Tables, t': Tables, v: Id, l: Id) {
    Fold(t'.stock.movements, Bucket(v, l, StockState.Reserved)) == Fold(t.stock.movements, Bucket(v, l, StockState.Reserved))
  }

  predicate SameOrderQty(t: Tables, t': Tables, o: Id, v: Id, l: Id) {
    var before, after := t.stock.movements, t'.stock.movements;
    && OrderQty(after, MovementType.Reservation, o, v, l) == OrderQty(before, MovementType.Reservation, o, v, l)
    && OrderQty(after, Release, o, v, l) == OrderQty(before, Release, o, v, l)
  }

  ghost predicate SameStamps(t: Tables, t': Tables) {
    t'.approvals == t.approvals && Stamped(t'.stock.movements) == Stamped(t.stock.movements)
  }

  /** The states the tracked operations put units in. */
  predicate Tracked(s: UnitState) {
    s == InStock || s == OnTheWay || s == InRepair
  }

  ghost predicate StatesOk(units: seq<StockUnit>) {
    forall i :: 0 <= i < |units| ==> Tracked(units[i].state)
  }

  /** Orders, reservations, approvals and reserved stock are untouched. */
  ghost predicate Quiet(t: Tables, t': Tables) {
    SameHolds(t, t') && SameStamps(t, t') && (StatesOk(t.units) ==> StatesOk(t'.units))
  }

  lemma QuietTrans(a: Tables, b: Tables, c: Tables)
    requires Quiet(a, b) && Quiet(b, c)
    ensures Quiet(a, c)
  {
    hide Fold, OrderQty, Stamped, StatesOk;
    forall v, l ensures SameReserved(a, c, v, l) {
      assert SameReserved(a, b, v, l) && SameReserved(b, c, v, l);
    }
    forall o, v, l ensures SameOrderQty(a, c, o, v, l) {
      assert SameOrderQty(a, b, o, v, l) && SameOrderQty(b, c, o, v, l);
    }
  }

  predicate QuietMovement(m: Movement) {
    && m.kind != MovementType.Reservation && m.kind != Release
    && (m.from.Some? ==> m.from.value.state != StockState.Reserved)
    && (m.to.Some? ==> m.to.value.state != StockState.Reserved)
  }

  lemma SettleShape(t: Tables, m: Movement)
    requires Settle(t, m).Ok?
    ensures Settle(t, m).value.stock.movements == t.stock.movements + [m]
    ensures Settle(t, m).value == t.(stock := Settle(t, m).value.stock)
  {
    hide ShapeError, Moved;
  }

  lemma QuietHolds(t: Tables, m: Movement)
    requires Settle(t, m).Ok? && QuietMovement(m)
    ensures SameHolds(t, Settle(t, m).value)
  {
    hide Fold, OrderQty, Settle;
    SettleShape(t, m);
    var t' := Settle(t, m).value;
    forall v, l ensures SameReserved(t, t', v, l) {
      FoldOne(t.stock.movements, m, Bucket(v, l, StockState.Reserved));
    }
    forall o, v, l ensures SameOrderQty(t, t', o, v, l) {
      OrderQtyPush(t.stock.movements, m, MovementType.Reservation, o, v, l);
      OrderQtyPush(t.stock.movements, m, Release, o, v, l);
    }
  }

  lemma {:induction false} StampedPush(ms: seq<Movement>, m: Movement)
    ensures Stamped(ms + [m]) == if m.approval.Some? then Stamped(ms) + [m] else Stamped(ms)
  {
    assert (ms + [m])[..|ms|] == ms;
  }

  /** Posting such a movement after changing units, none of them to an untracked state. */
  lemma QuietSettle(t: Tables, units: seq<StockUnit>, m: Movement)
    requires Settle(t.(units := units), m).Ok? && QuietMovement(m) && m.approval.None?
    requires StatesOk(t.units) ==> StatesOk(units)
    ensures Quiet(t, Settle(t.(units := units), m).value)
  {
    hide Fold, OrderQty, Settle, Stamped, StatesOk;
    var staged := t.(units := units);
    QuietHolds(staged, m);
    SettleShape(staged, m);
    StampedPush(t.stock.movements, m);
    var t' := Settle(staged, m).value;
    forall v, l ensures SameReserved(t, t', v, l) {
      assert SameReserved(staged, t', v, l);
    }
    forall o, v, l ensures SameOrderQty(t, t', o, v, l) {
      assert SameOrderQty(staged, t', o, v, l);
    }
  }

  lemma QuietSelf(t: Tables, transfers: map<Id, Transfer>)
    ensures Quiet(t, t.(transfers := transfers))
  {
  }

  lemma QuietHeader(a: Tables, b: Tables, transfers: map<Id, Transfer>)
    requires Quiet(a, b)
    ensures Quiet(a, b.(transfers := transfers))
  {
    hide Quiet;
    QuietSelf(b, transfers);
    QuietTrans(a, b, b.(transfers := transfers));
  }

  // ---------------------------------------------------------------- receipts, transfers and repairs are quiet

  lemma {:induction false} ReceiveUnitsQuiet(t: Tables, grn: Id, location: Id, variant: Id, ns: seq<NewUnit>,
                                             uuid: nat -> Id, unitId: nat -> Id)
    requires ReceiveUnits(t, grn, location, variant, ns, uuid, unitId).Ok?
    ensures Quiet(t, ReceiveUnits(t, grn, location, variant, ns, uuid, unitId).value)
  {
    hide Quiet, Settle, ImeiTaken, SerialTaken, ValidImei, Find;
    if ns == [] {
      QuietSelf(t, t.transfers);
    } else {
      var n := ns[|ns| - 1];
      ReceiveUnitsQuiet(t, grn, location, variant, ns[..|ns| - 1], uuid, unitId);
      var done := ReceiveUnits(t, grn, location, variant, ns[..|ns| - 1], uuid, unitId).value;
      var u := StockUnit(unitId(|done.stock.movements|), variant, n.imei1, n.imei2, n.serial, InStock, Some(location));
      var m := ReceiptOf(grn, location, variant, Some(u.id), WHOLE, NextId(done, uuid));
      QuietSettle(done, done.units + [u], m);
      QuietTrans(t, done, Settle(done.(units := done.units + [u]), m).value);
    }
  }

  lemma {:induction false} ReceiveLinesQuiet(shop: Shop, t: Tables, grn: Id, location: Id, lines: seq<ReceiveLine>,
                                             uuid: nat -> Id, unitId: nat -> Id)
    requires ReceiveLines(shop, t, grn, location, lines, uuid, unitId).Ok?
    ensures Quiet(t, ReceiveLines(shop, t, grn, location, lines, uuid, unitId).value)
  {
    hide Quiet, Settle, ReceiveUnits;
    if lines == [] {
      QuietSelf(t, t.transfers);
    } else {
      var line := lines[|lines| - 1];
      ReceiveLinesQuiet(shop, t, grn, location, lines[..|lines| - 1], uuid, unitId);
      var done := ReceiveLines(shop, t, grn, location, lines[..|lines| - 1], uuid, unitId).value;
      if shop.Serialized(line.variant) {
        ReceiveUnitsQuiet(done, grn, location, line.variant, line.units, uuid, unitId);
      } else {
        QuietSettle(done, done.units, ReceiptOf(grn, location, line.variant, None, line.qty.value, NextId(done, uuid)));
      }
      QuietTrans(t, done, ReceiveOne(shop, done, grn, location, line, uuid, unitId).value);
    }
  }

  lemma {:induction false} DispatchUnitsQuiet(t: Tables, transfer: Id, head: Transfer, variant: Id, units: seq<Id>, uuid: nat -> Id)
    requires DispatchUnits(t, transfer, head, variant, units, uuid).Ok?
    ensures Quiet(t, DispatchUnits(t, transfer, head, variant, units, uuid).value)
  {
    hide Quiet, Settle, Find;
    if units == [] {
      QuietSelf(t, t.transfers);
    } else {
      var unit := units[|units| - 1];
      DispatchUnitsQuiet(t, transfer, head, variant, units[..|units| - 1], uuid);
      var done := DispatchUnits(t, transfer, head, variant, units[..|units| - 1], uuid).value;
      var i := Find(done.units, unit).value;
      var after := done.units[i := MovedUnit(done.units[i], OnTheWay, head.to)];
      var m := OutOf(transfer, head, variant, Some(unit), WHOLE, NextId(done, uuid));
      QuietSettle(done, after, m);
      QuietTrans(t, done, Settle(done.(units := after), m).value);
    }
  }

  lemma {:induction false} DispatchLinesQuiet(shop: Shop, t: Tables, transfer: Id, head: Transfer,
                                              lines: seq<TransferLine>, uuid: nat -> Id)
    requires DispatchLines(shop, t, transfer, head, lines, uuid).Ok?
    ensures Quiet(t, DispatchLines(shop, t, transfer, head, lines, uuid).value)
  {
    hide Quiet, Settle, DispatchUnits;
    if lines == [] {
      QuietSelf(t, t.transfers);
    } else {
      var line := lines[|lines| - 1];
      DispatchLinesQuiet(shop, t, transfer, head, lines[..|lines| - 1], uuid);
      var done := DispatchLines(shop, t, transfer, head, lines[..|lines| - 1], uuid).value;
      if shop.Serialized(line.variant) {
        DispatchUnitsQuiet(done, transfer, head, line.variant, line.units, uuid);
      } else {
        QuietSettle(done, done.units, OutOf(transfer, head, line.variant, None, line.qty, NextId(done, uuid)));
      }
      QuietTrans(t, done, DispatchLine(shop, done, transfer, head, line, uuid).value);
    }
  }

  lemma DispatchQuiet(shop: Shop, t: Tables, transfer: Id, from: Id, to: Id, lines: seq<TransferLine>, uuid: nat -> Id)
    requires Dispatched(shop, t, transfer, from, to, lines, uuid).Ok?
    ensures Quiet(t, Dispatched(shop, t, transfer, from, to, lines, uuid).value)
  {
    hide Quiet, DispatchLines;
    var head := Transfer(from, to, false);
    var staged := t.(transfers := t.transfers[transfer := head]);
    QuietSelf(t, t.transfers[transfer := head]);
    DispatchLinesQuiet(shop, staged, transfer, head, lines, uuid);
    QuietTrans(t, staged, DispatchLines(shop, staged, transfer, head, lines, uuid).value);
  }

  lemma {:induction false} LandUnitsQuiet(t: Tables, transfer: Id, to: Id, legs: seq<Movement>, uuid: nat -> Id)
    requires forall m :: m in legs ==> m.unit.Some?
    requires LandUnits(t, transfer, to, legs, uuid).Ok?
    ensures Quiet(t, LandUnits(t, transfer, to, legs, uuid).value)
  {
    hide Quiet, Settle, Find;
    if legs == [] {
      QuietSelf(t, t.transfers);
    } else {
      var leg := legs[|legs| - 1];
      LandUnitsQuiet(t, transfer, to, legs[..|legs| - 1], uuid);
      var done := LandUnits(t, transfer, to, legs[..|legs| - 1], uuid).value;
      var after := LandedUnits(done.units, leg.unit.value, to);
      var m := InOf(transfer, to, leg.variant, leg.unit, WHOLE, NextId(done, uuid));
      QuietSettle(done, after, m);
      QuietTrans(t, done, Settle(done.(units := after), m).value);
    }
  }

  lemma {:induction false} LandBulkQuiet(t: Tables, sent: seq<Movement>, transfer: Id, to: Id, variants: seq<Id>, uuid: nat -> Id)
    requires LandBulk(t, sent, transfer, to, variants, uuid).Ok?
    ensures Quiet(t, LandBulk(t, sent, transfer, to, variants, uuid).value)
  {
    hide Quiet, Settle, BulkSum;
    if variants == [] {
      QuietSelf(t, t.transfers);
    } else {
      var v := variants[|variants| - 1];
      LandBulkQuiet(t, sent, transfer, to, variants[..|variants| - 1], uuid);
      var done := LandBulk(t, sent, transfer, to, variants[..|variants| - 1], uuid).value;
      var m := InOf(transfer, to, v, None, BulkSum(sent, transfer, v), NextId(done, uuid));
      QuietSettle(done, done.units, m);
      QuietTrans(t, done, Settle(done, m).value);
    }
  }

  lemma TransferReceivedQuiet(t: Tables, transfer: Id, uuid: nat -> Id)
    requires TransferReceived(t, transfer, uuid).Ok?
    ensures Quiet(t, TransferReceived(t, transfer, uuid).value)
  {
    hide Quiet, LandUnits, LandBulk, UnitLegs, BulkVariants;
    var sent, to := t.stock.movements, t.transfers[transfer].to;
    LandUnitsQuiet(t, transfer, to, UnitLegs(sent, transfer), uuid);
    var landed := LandUnits(t, transfer, to, UnitLegs(sent, transfer), uuid).value;
    LandBulkQuiet(landed, sent, transfer, to, BulkVariants(sent, transfer), uuid);
    var done := LandBulk(landed, sent, transfer, to, BulkVariants(sent, transfer), uuid).value;
    QuietTrans(t, landed, done);
    QuietHeader(t, done, Closed(done, transfer).transfers);
  }

  lemma SentToRepairQuiet(t: Tables, unit: Id, uuid: nat -> Id)
    requires SentToRepair(t, unit, uuid).Ok?
    ensures Quiet(t, SentToRepair(t, unit, uuid).value)
  {
    hide Quiet, Settle, Find;
    var i := Find(t.units, unit).value;
    var u := t.units[i];
    QuietSettle(t, t.units[i := MovedUnit(u, InRepair, u.location.value)], RepairOutOf(u, u.location.value, NextId(t, uuid)));
  }

  lemma BackFromRepairQuiet(t: Tables, unit: Id, uuid: nat -> Id)
    requires BackFromRepair(t, unit, uuid).Ok?
    ensures Quiet(t, BackFromRepair(t, unit, uuid).value)
  {
    hide Quiet, Settle, Find;
    var i := Find(t.units, unit).value;
    var u := t.units[i];
    QuietSettle(t, t.units[i := MovedUnit(u, InStock, u.location.value)], RepairInOf(u, u.location.value, NextId(t, uuid)));
  }

  /** What a quiet operation keeps. */
  lemma HoldsKeep(t: Tables, t': Tables)
    requires OrdersSound(t) && SameHolds(t, t')
    ensures OrdersSound(t')
  {
    hide Fold, OrderQty, ActiveQty, ActiveOf, RowsOk, HeadsOk;
    var ms', rs := t'.stock.movements, t.reservations;
    forall v, l ensures Fold(ms', Bucket(v, l, StockState.Reserved)) >= ActiveQty(rs, v, l) {
      assert SameReserved(t, t', v, l);
      assert Fold(t.stock.movements, Bucket(v, l, StockState.Reserved)) >= ActiveQty(rs, v, l);
    }
    forall o, v, l ensures OrderAt(ms', rs, t.orders, o, v, l) {
      assert SameOrderQty(t, t', o, v, l);
      assert OrderAt(t.stock.movements, rs, t.orders, o, v, l);
    }
  }

  // ---------------------------------------------------------------- order operations leave approvals and units alone

  /** Approvals and units are untouched; orders only gain entries or leave PendingPayment. */
  ghost predicate OrdersOnly(t: Tables, t': Tables) {
    SameStamps(t, t') && t'.units == t.units
  }

  lemma StampsAfterSettle(t: Tables, m: Movement)
    requires Settle(t, m).Ok? && m.approval.None?
    ensures OrdersOnly(t, Settle(t, m).value)
  {
    hide Settle, Stamped;
    SettleShape(t, m);
    StampedPush(t.stock.movements, m);
  }

  lemma {:induction false} ReserveLinesOnly(t: Tables, order: Id, site: Id, lines: seq<OrderLine>, expiresAt: Option<int>, lineId: nat -> Id)
    requires ReserveLines(t, order, site, lines, expiresAt, lineId).Ok?
    ensures OrdersOnly(t, ReserveLines(t, order, site, lines, expiresAt, lineId).value)
    ensures ReserveLines(t, order, site, lines, expiresAt, lineId).value.orders == t.orders
  {
    hide Settle, Stamped;
    if lines != [] {
      ReserveLinesOnly(t, order, site, lines[..|lines| - 1], expiresAt, lineId);
      var done := ReserveLines(t, order, site, lines[..|lines| - 1], expiresAt, lineId).value;
      var m := ReservationOf(order, site, lines[|lines| - 1], lineId(|lines| - 1));
      StampsAfterSettle(done, m);
      SettleShape(done, m);
    }
  }

  lemma ReleaseRowOnly(t: Tables, order: Id, i: nat, uuid: nat -> Id)
    requires i < |t.reservations| && ReleaseRow(t, order, i, uuid).Ok?
    ensures OrdersOnly(t, ReleaseRow(t, order, i, uuid).value) && ReleaseRow(t, order, i, uuid).value.orders == t.orders
  {
    hide Settle, Stamped;
    var row := t.reservations[i];
    if row.order == order && row.active {
      StampsAfterSettle(t, ReleaseOf(row, NextId(t, uuid)));
      SettleShape(t, ReleaseOf(row, NextId(t, uuid)));
    }
  }

  lemma {:induction false} ReleaseRowsOnly(t: Tables, order: Id, n: nat, uuid: nat -> Id)
    requires n <= |t.reservations| && ReleaseRows(t, order, n, uuid).Ok?
    ensures OrdersOnly(t, ReleaseRows(t, order, n, uuid).value) && ReleaseRows(t, order, n, uuid).value.orders == t.orders
  {
    hide ReleaseRow, Stamped;
    if n > 0 {
      ReleaseRowsOnly(t, order, n - 1, uuid);
      ReleaseRowOnly(ReleaseRows(t, order, n - 1, uuid).value, order, n - 1, uuid);
    }
  }

  // ---------------------------------------------------------------- adjustments

  /** What a second person may have signed off: countable stock of an untracked variant. */
  predicate ApprovalOk(shop: Shop, a: Approval) {
    && a.request.qty > 0 && !shop.Serialized(a.request.variant)
    && (a.request.from == OnHand || a.request.from == Damaged || a.request.from == ReturnedPending)
    && (a.decision.Approved? ==> a.decision.decider != a.request.requestedBy)
  }

  ghost predicate ApprovalsOk(shop: Shop, approvals: map<Id, Approval>) {
    forall id :: id in approvals ==> ApprovalOk(shop, approvals[id])
  }

  /** The movement takes off exactly what its approval authorises: variant, quantity, place, state and kind. */
  predicate StampOk(m: Movement, approvals: map<Id, Approval>) {
    m.approval.Some? && m.approval.value in approvals && approvals[m.approval.value].decision.Approved?
    && var a := approvals[m.approval.value].request;
       && m.kind == (if a.writeOff then WriteOff else MovementType.Adjustment)
       && m.variant == a.variant && m.unit.None? && m.qty == a.qty
       && m.from == Some(BucketRef(a.location, a.from)) && m.to.None?
       && m.reference == Reference("adjustment", m.approval.value)
  }

  /** Every stamped movement is authorised, and no approval stamps two. */
  predicate StampsOk(stamps: seq<Movement>, approvals: map<Id, Approval>) {
    stamps == [] || (
      var front, m := stamps[..|stamps| - 1], stamps[|stamps| - 1];
      StampsOk(front, approvals) && StampOk(m, approvals) && !Spent(front, m.approval.value))
  }

  ghost predicate ApprovalsSound(shop: Shop, t: Tables) {
    ApprovalsOk(shop, t.approvals) && StampsOk(Stamped(t.stock.movements), t.approvals)
  }

  lemma {:induction false} SpentStamped(ms: seq<Movement>, approval: Id)
    ensures Spent(ms, approval) <==> Spent(Stamped(ms), approval)
  {
    if ms != [] {
      var front, m := Stamped(ms[..|ms| - 1]), ms[|ms| - 1];
      SpentStamped(ms[..|ms| - 1], approval);
      assert (front + [m])[..|front|] == front;
    }
  }

  /** Authorised movements stay authorised while approvals are added or undecided ones decided. */
  lemma {:induction false} StampsStay(stamps: seq<Movement>, before: map<Id, Approval>, after: map<Id, Approval>)
    requires StampsOk(stamps, before)
    requires forall id :: id in before && before[id].decision.Approved? ==> id in after && after[id] == before[id]
    ensures StampsOk(stamps, after)
  {
    hide AdjustmentOf, Spent;
    if stamps != [] {
      StampsStay(stamps[..|stamps| - 1], before, after);
    }
  }

  lemma RequestedKeeps(shop: Shop, t: Tables, id: Id, request: AdjustmentRequest, found: bool)
    requires ApprovalsSound(shop, t) && Requested(shop, t, id, request, found).Ok?
    ensures ApprovalsSound(shop, Requested(shop, t, id, request, found).value)
  {
    hide Stamped, StampsOk;
    StampsStay(Stamped(t.stock.movements), t.approvals, Requested(shop, t, id, request, found).value.approvals);
  }

  lemma DecidedKeeps(shop: Shop, t: Tables, id: Id, decider: Id, approve: bool)
    requires ApprovalsSound(shop, t) && Decided(t, id, decider, approve).Ok?
    ensures ApprovalsSound(shop, Decided(t, id, decider, approve).value)
  {
    hide Stamped, StampsOk;
    StampsStay(Stamped(t.stock.movements), t.approvals, Decided(t, id, decider, approve).value.approvals);
  }

  lemma AdjustedKeeps(shop: Shop, t: Tables, approval: Id, uuid: nat -> Id)
    requires Whole(shop, t) && Adjusted(t, approval, uuid).Ok?
    ensures Whole(shop, Adjusted(t, approval, uuid).value)
  {
    hide UnitsSound, OrdersSound, Settle, Stamped, Spent, StatesOk;
    var m := AdjustmentOf(approval, t.approvals[approval].request, NextId(t, uuid));
    assert ApprovalOk(shop, t.approvals[approval]);
    PlainSettleKeeps(shop, t, m);
    QuietHolds(t, m);
    HoldsKeep(t, Settle(t, m).value);
    SettleShape(t, m);
    StampedPush(t.stock.movements, m);
    SpentStamped(t.stock.movements, approval);
    var stamps := Stamped(t.stock.movements);
    assert (stamps + [m])[..|stamps|] == stamps;
  }

  // ---------------------------------------------------------------- runs

  datatype Event =
    | Receive(grn: Id, location: Id, goods: seq<ReceiveLine>, uuid: nat -> Id, unitId: nat -> Id)
    | Dispatch(transfer: Id, from: Id, to: Id, legs: seq<TransferLine>, uuid: nat -> Id)
    | ReceiveTransfer(transfer: Id, uuid: nat -> Id)
    | SendToRepair(unit: Id, uuid: nat -> Id)
    | ReturnFromRepair(unit: Id, uuid: nat -> Id)
    | Checkout(order: Id, lines: seq<OrderLine>, confirmed: bool, expiresAt: int, lineId: nat -> Id)
    | Import(channel: Id, channelOrder: ChannelOrder, newId: Id, hash: string -> Id)
    | Confirm(order: Id)
    | Expire(order: Id, uuid: nat -> Id)
    | RequestAdjustment(approval: Id, request: AdjustmentRequest, found: bool)
    | DecideAdjustment(approval: Id, decider: Id, approve: bool)
    | PostAdjustment(approval: Id, uuid: nat -> Id)

  /** A failed transaction rolls back. */
  function Committed(t: Tables, r: Result<Tables, StockError>): Tables {
    match r case Ok(after) => after case Err(_) => t
  }

  function Step(shop: Shop, t: Tables, e: Event): Tables {
    match e
    case Receive(grn, location, goods, uuid, unitId) => Committed(t, Received(shop, t, grn, location, goods, uuid, unitId))
    case Dispatch(transfer, from, to, legs, uuid) => Committed(t, Dispatched(shop, t, transfer, from, to, legs, uuid))
    case ReceiveTransfer(transfer, uuid) => Committed(t, TransferReceived(t, transfer, uuid))
    case SendToRepair(unit, uuid) => Committed(t, SentToRepair(t, unit, uuid))
    case ReturnFromRepair(unit, uuid) => Committed(t, BackFromRepair(t, unit, uuid))
    case Checkout(order, lines, confirmed, expiresAt, lineId) =>
      Committed(t, CheckedOut(shop, t, order, lines, confirmed, expiresAt, lineId))
    case Import(channel, channelOrder, newId, hash) => ImportOne(shop, t, channel, channelOrder, newId, hash).0
    case Confirm(order) => PaymentConfirmed(t, order)
    case Expire(order, uuid) => Expired(shop, t, order, uuid).0
    case RequestAdjustment(approval, request, found) => Committed(t, Requested(shop, t, approval, request, found))
    case DecideAdjustment(approval, decider, approve) => Committed(t, Decided(t, approval, decider, approve))
    case PostAdjustment(approval, uuid) => Committed(t, Adjusted(t, approval, uuid))
  }

  function Run(shop: Shop, es: seq<Event>): Tables {
    if es == [] then EMPTY else Step(shop, Run(shop, es[..|es| - 1]), es[|es| - 1])
  }

  ghost predicate Whole(shop: Shop, t: Tables) {
    UnitsSound(shop, t) && OrdersSound(t) && ApprovalsSound(shop, t) && StatesOk(t.units)
  }

  lemma QuietKeeps(shop: Shop, t: Tables, t': Tables)
    requires Whole(shop, t) && Quiet(t, t') && UnitsSound(shop, t')
    ensures Whole(shop, t')
  {
    hide UnitsSound, OrdersSound, Stamped, StatesOk;
    HoldsKeep(t, t');
  }

  lemma OrdersOnlyKeeps(shop: Shop, t: Tables, t': Tables)
    requires Whole(shop, t) && OrdersOnly(t, t') && Sound(shop, t')
    ensures Whole(shop, t')
  {
    hide UnitsSound, OrdersSound, Stamped, StatesOk;
  }

  lemma GoodsStepKeeps(shop: Shop, t: Tables, e: Event)
    requires Whole(shop, t)
    requires e.Receive? || e.Dispatch? || e.ReceiveTransfer? || e.SendToRepair? || e.ReturnFromRepair?
    ensures Whole(shop, Step(shop, t, e))
  {
    hide UnitsSound, OrdersSound, ApprovalsSound, Quiet, ReceiveLines, Dispatched, TransferReceived;
    var t' := Step(shop, t, e);
    if t' != t {
      match e {
        case Receive(grn, location, goods, uuid, unitId) =>
          ReceiveLinesKeep(shop, t, grn, location, goods, uuid, unitId);
          ReceiveLinesQuiet(shop, t, grn, location, goods, uuid, unitId);
        case Dispatch(transfer, from, to, legs, uuid) =>
          DispatchKeeps(shop, t, transfer, from, to, legs, uuid);
          DispatchQuiet(shop, t, transfer, from, to, legs, uuid);
        case ReceiveTransfer(transfer, uuid) =>
          TransferReceivedKeeps(shop, t, transfer, uuid);
          TransferReceivedQuiet(t, transfer, uuid);
        case SendToRepair(unit, uuid) =>
          OnlyStockGoesToRepair(t, unit, uuid);
          SentToRepairKeeps(shop, t, unit, uuid);
          SentToRepairQuiet(t, unit, uuid);
        case ReturnFromRepair(unit, uuid) =>
          BackFromRepairKeeps(shop, t, unit, uuid);
          BackFromRepairQuiet(t, unit, uuid);
      }
      QuietKeeps(shop, t, t');
    }
  }

  /** Among the tracked states only in-stock units may go to repair. */
  lemma {:induction false} OnlyStockGoesToRepair(t: Tables, unit: Id, uuid: nat -> Id)
    requires StatesOk(t.units) && SentToRepair(t, unit, uuid).Ok?
    ensures Find(t.units, unit).Some? && t.units[Find(t.units, unit).value].state == InStock
  {
    hide Settle, Find;
  }

  lemma OrderStepKeeps(shop: Shop, t: Tables, e: Event)
    requires Whole(shop, t) && (e.Checkout? || e.Import? || e.Confirm? || e.Expire?)
    ensures Whole(shop, Step(shop, t, e))
  {
    hide UnitsSound, OrdersSound, ApprovalsSound, ReserveLines, ReleaseRows, Stamped, ChooseSite, Resolved, HasImported, Retired;
    var t' := Step(shop, t, e);
    if t' != t {
      match e {
        case Checkout(order, lines, confirmed, expiresAt, lineId) =>
          CheckedOutKeeps(shop, t, order, lines, confirmed, expiresAt, lineId);
          var staged := t.(orders := t.orders[order := SalesOrder(if confirmed then Confirmed else PendingPayment, None)]);
          ReserveLinesOnly(staged, order, ChooseSite(t.stock.levels, shop.sites, lines).value, lines, Some(expiresAt), lineId);
        case Import(channel, order, newId, hash) =>
          ImportKeeps(shop, t, channel, order, newId, hash);
          var lines := Resolved(shop.skus, order.lines).value;
          ReserveLinesOnly(t.(orders := t.orders[newId := SalesOrder(Confirmed, Some((channel, order.external)))]), newId,
                           ChooseSite(t.stock.levels, shop.sites, lines).value, lines, None,
                           (i: nat) => hash(ImportLineKey(channel, order.external, i)));
        case Confirm(order) =>
          ConfirmKeeps(shop, t, order);
        case Expire(order, uuid) =>
          ExpiredKeeps(shop, t, order, uuid);
          if ReleaseRows(t, order, |t.reservations|, uuid).Ok? {
            ReleaseRowsOnly(t, order, |t.reservations|, uuid);
          }
      }
      OrdersOnlyKeeps(shop, t, t');
    }
  }

  lemma AdjustmentStepKeeps(shop: Shop, t: Tables, e: Event)
    requires Whole(shop, t) && (e.RequestAdjustment? || e.DecideAdjustment? || e.PostAdjustment?)
    ensures Whole(shop, Step(shop, t, e))
  {
    hide UnitsSound, OrdersSound, ApprovalsSound, Settle, Spent, StatesOk;
    var t' := Step(shop, t, e);
    if t' != t {
      match e {
        case RequestAdjustment(approval, request, found) =>
          RequestedKeeps(shop, t, approval, request, found);
          SameUnits(shop, t, t');
          SameOrdersSound(t, t');
        case DecideAdjustment(approval, decider, approve) =>
          DecidedKeeps(shop, t, approval, decider, approve);
          SameUnits(shop, t, t');
          SameOrdersSound(t, t');
        case PostAdjustment(approval, uuid) =>
          AdjustedKeeps(shop, t, approval, uuid);
      }
    }
  }

  lemma SameOrdersSound(t: Tables, t': Tables)
    requires OrdersSound(t) && t'.stock == t.stock && t'.orders == t.orders && t'.reservations == t.reservations
    ensures OrdersSound(t')
  {
  }

  lemma EmptyIsWhole(shop: Shop)
    ensures Whole(shop, EMPTY)
  {
    forall b ensures Fold([], b) == 0 {}
  }

  /** Every reachable state is sound: ledger, units, transfers, orders and approvals together. */
  lemma {:induction false} RunIsWhole(shop: Shop, es: seq<Event>)
    ensures Whole(shop, Run(shop, es))
  {
    hide Whole, Step;
    if es == [] {
      EmptyIsWhole(shop);
    } else {
      RunIsWhole(shop, es[..|es| - 1]);
      var t, e := Run(shop, es[..|es| - 1]), es[|es| - 1];
      if e.Receive? || e.Dispatch? || e.ReceiveTransfer? || e.SendToRepair? || e.ReturnFromRepair? {
        GoodsStepKeeps(shop, t, e);
      } else if e.Checkout? || e.Import? || e.Confirm? || e.Expire? {
        OrderStepKeeps(shop, t, e);
      } else {
        AdjustmentStepKeeps(shop, t, e);
      }
    }
  }

  // ---------------------------------------------------------------- what that means

  /** In every reachable state each level is the fold of the ledger, and none is negative. */
  lemma {:induction false} LevelsAreTheLedger(shop: Shop, es: seq<Event>, b: Bucket)
    ensures LevelIn(Run(shop, es).stock.levels, b) == Fold(Run(shop, es).stock.movements, b) >= 0
  {
    RunIsWhole(shop, es);
  }

  /** In every reachable state units and buckets of every serialized variant agree at every place. */
  lemma {:induction false} UnitsFillTheirBuckets(shop: Shop, es: seq<Event>, v: Id, l: Id)
    requires shop.Serialized(v)
    ensures var t := Run(shop, es);
      && LevelIn(t.stock.levels, Bucket(v, l, OnHand)) + LevelIn(t.stock.levels, Bucket(v, l, StockState.Reserved))
         == WHOLE * Count(t.units, v, l, InStock)
      && LevelIn(t.stock.levels, Bucket(v, l, InTransit)) == WHOLE * Count(t.units, v, l, OnTheWay)
      && LevelIn(t.stock.levels, Bucket(v, l, Damaged)) == WHOLE * Count(t.units, v, l, InRepair)
  {
    RunIsWhole(shop, es);
    LevelsAreTheLedger(shop, es, Bucket(v, l, OnHand));
    LevelsAreTheLedger(shop, es, Bucket(v, l, StockState.Reserved));
    LevelsAreTheLedger(shop, es, Bucket(v, l, InTransit));
    LevelsAreTheLedger(shop, es, Bucket(v, l, Damaged));
    var t := Run(shop, es);
    assert Agrees(shop, t.stock.movements, t.units);
    assert AgreesAt(t.stock.movements, t.units, v, l);
  }

  /** In every reachable state the reserved level covers the active reservations. */
  lemma {:induction false} ReservationsAreCovered(shop: Shop, es: seq<Event>, v: Id, l: Id)
    ensures var t := Run(shop, es);
      LevelIn(t.stock.levels, Bucket(v, l, StockState.Reserved)) >= ActiveQty(t.reservations, v, l)
  {
    hide Step, UnitsSound, RowsOk, HeadsOk, OrdersAt, ApprovalsSound;
    RunIsWhole(shop, es);
    LevelsAreTheLedger(shop, es, Bucket(v, l, StockState.Reserved));
  }

  /** An order's stock is released once, wholly and only on cancellation; an imported order's never. */
  lemma {:induction false} ReleasedOnceOrNever(shop: Shop, es: seq<Event>, o: Id, v: Id, l: Id)
    ensures var t := Run(shop, es);
      var reserved := OrderQty(t.stock.movements, MovementType.Reservation, o, v, l);
      var released := OrderQty(t.stock.movements, Release, o, v, l);
      && (released == 0 || (released == reserved && o in t.orders && t.orders[o].status == Cancelled))
      && (o in t.orders && t.orders[o].status == Cancelled ==> released == reserved)
      && (o in t.orders && t.orders[o].external.Some? ==> released == 0 && t.orders[o].status == Confirmed)
  {
    hide Step, UnitsSound, RowsOk, Covered, ApprovalsSound, OrderQty;
    RunIsWhole(shop, es);
    var t := Run(shop, es);
    assert OrderAt(t.stock.movements, t.reservations, t.orders, o, v, l);
  }

  lemma OrdersStay(shop: Shop, t: Tables, e: Event, o: Id)
    requires o in t.orders
    ensures var after := Step(shop, t, e).orders;
      && o in after && after[o].external == t.orders[o].external
      && (t.orders[o].status != PendingPayment ==> after[o].status == t.orders[o].status)
  {
    hide ReserveLines, ReleaseRows, ReceiveLines, Dispatched, TransferReceived, SentToRepair, BackFromRepair, Settle,
         ChooseSite, Resolved, HasImported, Retired, Spent, Quiet;
    match e {
      case Receive(grn, location, goods, uuid, unitId) =>
        if Received(shop, t, grn, location, goods, uuid, unitId).Ok? {
          ReceiveLinesQuiet(shop, t, grn, location, goods, uuid, unitId);
          QuietOrders(t, Step(shop, t, e));
        }
      case Dispatch(transfer, from, to, legs, uuid) =>
        if Dispatched(shop, t, transfer, from, to, legs, uuid).Ok? {
          DispatchQuiet(shop, t, transfer, from, to, legs, uuid);
          QuietOrders(t, Step(shop, t, e));
        }
      case ReceiveTransfer(transfer, uuid) =>
        if TransferReceived(t, transfer, uuid).Ok? {
          TransferReceivedQuiet(t, transfer, uuid);
          QuietOrders(t, Step(shop, t, e));
        }
      case SendToRepair(unit, uuid) =>
        if SentToRepair(t, unit, uuid).Ok? {
          SentToRepairQuiet(t, unit, uuid);
          QuietOrders(t, Step(shop, t, e));
        }
      case ReturnFromRepair(unit, uuid) =>
        if BackFromRepair(t, unit, uuid).Ok? {
          BackFromRepairQuiet(t, unit, uuid);
          QuietOrders(t, Step(shop, t, e));
        }
      case _ => OrderStepsStay(shop, t, e, o);
    }
  }

  lemma QuietOrders(t: Tables, t': Tables)
    requires Quiet(t, t')
    ensures t'.orders == t.orders
  {
  }

  lemma OrderStepsStay(shop: Shop, t: Tables, e: Event, o: Id)
    requires o in t.orders
    requires !(e.Receive? || e.Dispatch? || e.ReceiveTransfer? || e.SendToRepair? || e.ReturnFromRepair?)
    ensures var after := Step(shop, t, e).orders;
      && o in after && after[o].external == t.orders[o].external
      && (t.orders[o].status != PendingPayment ==> after[o].status == t.orders[o].status)
  {
    hide ReserveLines, ReleaseRows, Settle, ChooseSite, Resolved, HasImported, Retired, Spent, OrdersOnly, AdjustmentOf;
    match e {
      case Checkout(order, lines, confirmed, expiresAt, lineId) =>
        if CheckedOut(shop, t, order, lines, confirmed, expiresAt, lineId).Ok? {
          var staged := t.(orders := t.orders[order := SalesOrder(if confirmed then Confirmed else PendingPayment, None)]);
          ReserveLinesOnly(staged, order, ChooseSite(t.stock.levels, shop.sites, lines).value, lines, Some(expiresAt), lineId);
        }
      case Import(channel, order, newId, hash) =>
        if ImportOne(shop, t, channel, order, newId, hash).1 == Imported {
          var lines := Resolved(shop.skus, order.lines).value;
          ReserveLinesOnly(t.(orders := t.orders[newId := SalesOrder(Confirmed, Some((channel, order.external)))]), newId,
                           ChooseSite(t.stock.levels, shop.sites, lines).value, lines, None,
                           (i: nat) => hash(ImportLineKey(channel, order.external, i)));
        }
      case Expire(order, uuid) =>
        if ReleaseRows(t, order, |t.reservations|, uuid).Ok? {
          ReleaseRowsOnly(t, order, |t.reservations|, uuid);
        }
      case PostAdjustment(approval, uuid) =>
        if Adjusted(t, approval, uuid).Ok? {
          SettleShape(t, AdjustmentOf(approval, t.approvals[approval].request, NextId(t, uuid)));
        }
      case _ =>
    }
  }

  /** Confirmed by payment or cancelled by the janitor, never both: either is final over every later run. */
  lemma {:induction false} OrderOutcomeIsFinal(shop: Shop, es: seq<Event>, n: nat, o: Id)
    requires n <= |es| && o in Run(shop, es[..n]).orders && Run(shop, es[..n]).orders[o].status != PendingPayment
    ensures o in Run(shop, es).orders && Run(shop, es).orders[o].status == Run(shop, es[..n]).orders[o].status
    decreases |es|
  {
    hide Step;
    if n == |es| {
      assert es[..n] == es;
    } else {
      var front := es[..|es| - 1];
      assert front[..n] == es[..n];
      OrderOutcomeIsFinal(shop, front, n, o);
      OrdersStay(shop, Run(shop, front), es[|es| - 1], o);
    }
  }

  lemma {:induction false} StampAt(ms: seq<Movement>, approvals: map<Id, Approval>, i: nat)
    requires StampsOk(Stamped(ms), approvals) && i < |ms| && ms[i].approval.Some?
    ensures StampOk(ms[i], approvals)
    ensures !Spent(ms[..i], ms[i].approval.value)
  {
    hide StampOk, Spent;
    var front, m := ms[..|ms| - 1], ms[|ms| - 1];
    if i == |front| {
      assert (Stamped(front) + [m])[..|Stamped(front)|] == Stamped(front);
      SpentStamped(front, m.approval.value);
    } else {
      if m.approval.Some? {
        assert (Stamped(front) + [m])[..|Stamped(front)|] == Stamped(front);
      }
      StampAt(front, approvals, i);
      assert front[..i] == ms[..i];
    }
  }

  lemma {:induction false} SpentAt(ms: seq<Movement>, i: nat, approval: Id)
    requires i < |ms| && ms[i].approval == Some(approval)
    ensures Spent(ms, approval)
  {
    if i < |ms| - 1 {
      SpentAt(ms[..|ms| - 1], i, approval);
    }
  }

  /** Every movement of a kind that needs approval is exactly what a second person approved. */
  lemma {:induction false} AdjustmentsAreAuthorised(shop: Shop, es: seq<Event>, i: nat)
    requires i < |Run(shop, es).stock.movements| && NeedsApproval(Run(shop, es).stock.movements[i].kind)
    ensures var t := Run(shop, es);
      var m := t.stock.movements[i];
      && StampOk(m, t.approvals)
      && t.approvals[m.approval.value].decision.decider != t.approvals[m.approval.value].request.requestedBy
  {
    hide Step, OrdersSound, Spent, Agrees, TransfersOk, Run, StatesOk;
    RunIsWhole(shop, es);
    var t := Run(shop, es);
    WellShapedAt(t.stock.movements, i);
    StampAt(t.stock.movements, t.approvals, i);
    assert ApprovalOk(shop, t.approvals[t.stock.movements[i].approval.value]);
  }

  /** No approval is spent on two of them. */
  lemma {:induction false} ApprovalsAreSpentOnce(shop: Shop, es: seq<Event>, i: nat, j: nat)
    requires var ms := Run(shop, es).stock.movements;
      i < j < |ms| && NeedsApproval(ms[i].kind) && NeedsApproval(ms[j].kind)
    ensures var ms := Run(shop, es).stock.movements;
      ms[i].approval.Some? && ms[j].approval.Some? && ms[i].approval != ms[j].approval
  {
    hide Step, OrdersSound, Spent, Agrees, TransfersOk, Run, StatesOk;
    RunIsWhole(shop, es);
    var t := Run(shop, es);
    var ms := t.stock.movements;
    WellShapedAt(ms, i);
    WellShapedAt(ms, j);
    StampAt(ms, t.approvals, j);
    if ms[i].approval == ms[j].approval {
      SpentAt(ms[..j], i, ms[j].approval.value);
    }
  }

  // ---------------------------------------------------------------- imports are idempotent

  /** Importing the same marketplace order again changes nothing. */
  lemma ReimportIsDuplicate(shop: Shop, t: Tables, channel: Id, order: ChannelOrder, newId: Id, again: Id, hash: string -> Id)
    requires ImportOne(shop, t, channel, order, newId, hash).1 == Imported
    ensures var after := ImportOne(shop, t, channel, order, newId, hash).0;
      ImportOne(shop, after, channel, order, again, hash) == (after, Duplicate)
  {
    hide ReserveLines, ChooseSite, Resolved;
    var after := ImportOne(shop, t, channel, order, newId, hash).0;
    var lines := Resolved(shop.skus, order.lines).value;
    ReserveLinesOnly(t.(orders := t.orders[newId := SalesOrder(Confirmed, Some((channel, order.external)))]), newId,
                     ChooseSite(t.stock.levels, shop.sites, lines).value, lines, None,
                     (i: nat) => hash(ImportLineKey(channel, order.external, i)));
    assert after.orders[newId].external == Some((channel, order.external));
  }

  /** An order that appears in a step with a marketplace reference was not there under that reference before. */
  lemma NewExternal(shop: Shop, t: Tables, e: Event, o: Id, x: (Id, Id))
    requires o !in t.orders && o in Step(shop, t, e).orders && Step(shop, t, e).orders[o].external == Some(x)
    ensures forall p :: p in t.orders ==> t.orders[p].external != Some(x)
    ensures forall p :: p in Step(shop, t, e).orders && p != o ==> p in t.orders
  {
    hide ReserveLines, ReleaseRows, ReceiveLines, Dispatched, TransferReceived, SentToRepair, BackFromRepair, Settle,
         ChooseSite, Resolved, Retired, Spent, Quiet;
    match e {
      case Receive(grn, location, goods, uuid, unitId) =>
        if Received(shop, t, grn, location, goods, uuid, unitId).Ok? {
          ReceiveLinesQuiet(shop, t, grn, location, goods, uuid, unitId);
          QuietOrders(t, Step(shop, t, e));
        }
      case Dispatch(transfer, from, to, legs, uuid) =>
        if Dispatched(shop, t, transfer, from, to, legs, uuid).Ok? {
          DispatchQuiet(shop, t, transfer, from, to, legs, uuid);
          QuietOrders(t, Step(shop, t, e));
        }
      case ReceiveTransfer(transfer, uuid) =>
        if TransferReceived(t, transfer, uuid).Ok? {
          TransferReceivedQuiet(t, transfer, uuid);
          QuietOrders(t, Step(shop, t, e));
        }
      case SendToRepair(unit, uuid) =>
        if SentToRepair(t, unit, uuid).Ok? {
          SentToRepairQuiet(t, unit, uuid);
          QuietOrders(t, Step(shop, t, e));
        }
      case ReturnFromRepair(unit, uuid) =>
        if BackFromRepair(t, unit, uuid).Ok? {
          BackFromRepairQuiet(t, unit, uuid);
          QuietOrders(t, Step(shop, t, e));
        }
      case _ => NewExternalOrder(shop, t, e, o, x);
    }
  }

  lemma NewExternalOrder(shop: Shop, t: Tables, e: Event, o: Id, x: (Id, Id))
    requires !(e.Receive? || e.Dispatch? || e.ReceiveTransfer? || e.SendToRepair? || e.ReturnFromRepair?)
    requires o !in t.orders && o in Step(shop, t, e).orders && Step(shop, t, e).orders[o].external == Some(x)
    ensures forall p :: p in t.orders ==> t.orders[p].external != Some(x)
    ensures forall p :: p in Step(shop, t, e).orders && p != o ==> p in t.orders
  {
    hide ReserveLines, ReleaseRows, Settle, ChooseSite, Resolved, Retired, Spent, OrdersOnly, AdjustmentOf;
    match e {
      case Checkout(order, lines, confirmed, expiresAt, lineId) =>
        var staged := t.(orders := t.orders[order := SalesOrder(if confirmed then Confirmed else PendingPayment, None)]);
        ReserveLinesOnly(staged, order, ChooseSite(t.stock.levels, shop.sites, lines).value, lines, Some(expiresAt), lineId);
      case Import(channel, order, newId, hash) =>
        var lines := Resolved(shop.skus, order.lines).value;
        ReserveLinesOnly(t.(orders := t.orders[newId := SalesOrder(Confirmed, Some((channel, order.external)))]), newId,
                         ChooseSite(t.stock.levels, shop.sites, lines).value, lines, None,
                         (i: nat) => hash(ImportLineKey(channel, order.external, i)));
      case Expire(order, uuid) =>
        if ReleaseRows(t, order, |t.reservations|, uuid).Ok? {
          ReleaseRowsOnly(t, order, |t.reservations|, uuid);
        }
      case PostAdjustment(approval, uuid) =>
        if Adjusted(t, approval, uuid).Ok? {
          SettleShape(t, AdjustmentOf(approval, t.approvals[approval].request, NextId(t, uuid)));
        }
      case _ =>
    }
  }

  /** At most one order per channel and marketplace reference, over every run. */
  lemma {:induction false} OneOrderPerReference(shop: Shop, es: seq<Event>, a: Id, b: Id, x: (Id, Id))
    requires var orders := Run(shop, es).orders;
      a in orders && b in orders && orders[a].external == Some(x) && orders[b].external == Some(x)
    ensures a == b
  {
    hide Step;
    var t, e := Run(shop, es[..|es| - 1]), es[|es| - 1];
    if a !in t.orders {
      NewExternal(shop, t, e, a, x);
    } else if b !in t.orders {
      NewExternal(shop, t, e, b, x);
    } else {
      OrdersStay(shop, t, e, a);
      OrdersStay(shop, t, e, b);
      OneOrderPerReference(shop, es[..|es| - 1], a, b, x);
    }
    if (a in t.orders) != (b in t.orders) {
      OrdersStay(shop, t, e, if a in t.orders then a else b);
    }
  }

  function ColonAt(s: string): nat {
    if s == [] || s[0] == ':' then 0 else 1 + ColonAt(s[1..])
  }

  lemma {:induction false} ColonAfter(c: string, rest: string)
    requires ':' !in c
    ensures ColonAt(c + (":" + rest)) == |c|
  {
    if c == [] {
      assert c + (":" + rest) == ":" + rest;
    } else {
      ColonAfter(c[1..], rest);
      assert (c + (":" + rest))[1..] == c[1..] + (":" + rest);
    }
  }

  /** Channel ids hold no colon, so keys of different channels, orders or lines differ, and with them the hashed ids. */
  lemma ImportKeysDiffer(c1: Id, x1: Id, i1: nat, c2: Id, x2: Id, i2: nat)
    requires ':' !in c1 && ':' !in c2
    requires ImportLineKey(c1, x1, i1) == ImportLineKey(c2, x2, i2)
    ensures c1 == c2 && x1 == x2 && i1 == i2
  {
    NumberedInjective(c1 + ":" + x1, i1, c2 + ":" + x2, i2);
    assert c1 + ":" + x1 == c1 + (":" + x1) && c2 + ":" + x2 == c2 + (":" + x2);
    ColonAfter(c1, x1);
    ColonAfter(c2, x2);
    assert (c1 + ":" + x1)[..|c1|] == c1 && (c2 + ":" + x2)[..|c2|] == c2;
    assert (c1 + ":" + x1)[|c1| + 1..] == x1 && (c2 + ":" + x2)[|c2| + 1..] == x2;
  }
}
