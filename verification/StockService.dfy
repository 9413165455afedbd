/** The stock services, updating the tables in place inside transactions, against the functions that specify them. */
module StockService {
  import opened Common
  import opened Janitor
  import opened Ledger
  import opened Serialized
  import opened StockModel
  import opened StockOrders
  import opened StockUnits

  /** What a transaction leaves: the new tables, or the old ones and the error. */
  ghost predicate Transacted(before: Tables, r: Result<Tables, StockError>, after: Tables, failure: Option<StockError>) {
    match r
    case Ok(t) => failure.None? && after == t
    case Err(e) => failure == Some(e) && after == before
  }

  // ---------------------------------------------------------------- the first error ends the transaction

  lemma {:induction false} ReceiveUnitsStick(t: Tables, grn: Id, location: Id, variant: Id, ns: seq<NewUnit>, k: nat,
                                             uuid: nat -> Id, unitId: nat -> Id)
    requires k <= |ns| && ReceiveUnits(t, grn, location, variant, ns[..k], uuid, unitId).Err?
    ensures ReceiveUnits(t, grn, location, variant, ns, uuid, unitId)
      == ReceiveUnits(t, grn, location, variant, ns[..k], uuid, unitId)
  {
    hide ReceiveUnit;
    if k == |ns| {
      assert ns[..k] == ns;
    } else {
      assert ns[..|ns| - 1][..k] == ns[..k];
      ReceiveUnitsStick(t, grn, location, variant, ns[..|ns| - 1], k, uuid, unitId);
    }
  }

  lemma {:induction false} ReceiveLinesStick(shop: Shop, t: Tables, grn: Id, location: Id, lines: seq<ReceiveLine>, k: nat,
                                             uuid: nat -> Id, unitId: nat -> Id)
    requires k <= |lines| && ReceiveLines(shop, t, grn, location, lines[..k], uuid, unitId).Err?
    ensures ReceiveLines(shop, t, grn, location, lines, uuid, unitId)
      == ReceiveLines(shop, t, grn, location, lines[..k], uuid, unitId)
  {
    hide ReceiveOne;
    if k == |lines| {
      assert lines[..k] == lines;
    } else {
      assert lines[..|lines| - 1][..k] == lines[..k];
      ReceiveLinesStick(shop, t, grn, location, lines[..|lines| - 1], k, uuid, unitId);
    }
  }

  lemma {:induction false} DispatchUnitsStick(t: Tables, transfer: Id, head: Transfer, variant: Id, units: seq<Id>, k: nat, uuid: nat -> Id)
    requires k <= |units| && DispatchUnits(t, transfer, head, variant, units[..k], uuid).Err?
    ensures DispatchUnits(t, transfer, head, variant, units, uuid) == DispatchUnits(t, transfer, head, variant, units[..k], uuid)
  {
    hide DispatchUnit;
    if k == |units| {
      assert units[..k] == units;
    } else {
      assert units[..|units| - 1][..k] == units[..k];
      DispatchUnitsStick(t, transfer, head, variant, units[..|units| - 1], k, uuid);
    }
  }

  lemma {:induction false} DispatchLinesStick(shop: Shop, t: Tables, transfer: Id, head: Transfer, lines: seq<TransferLine>,
                                              k: nat, uuid: nat -> Id)
    requires k <= |lines| && DispatchLines(shop, t, transfer, head, lines[..k], uuid).Err?
    ensures DispatchLines(shop, t, transfer, head, lines, uuid) == DispatchLines(shop, t, transfer, head, lines[..k], uuid)
  {
    hide DispatchLine;
    if k == |lines| {
      assert lines[..k] == lines;
    } else {
      assert lines[..|lines| - 1][..k] == lines[..k];
      DispatchLinesStick(shop, t, transfer, head, lines[..|lines| - 1], k, uuid);
    }
  }

  lemma {:induction false} LandUnitsStick(t: Tables, transfer: Id, to: Id, legs: seq<Movement>, k: nat, uuid: nat -> Id)
    requires (forall m :: m in legs ==> m.unit.Some?) && k <= |legs|
    requires LandUnits(t, transfer, to, legs[..k], uuid).Err?
    ensures LandUnits(t, transfer, to, legs, uuid) == LandUnits(t, transfer, to, legs[..k], uuid)
  {
    hide LandUnit;
    if k == |legs| {
      assert legs[..k] == legs;
    } else {
      assert legs[..|legs| - 1][..k] == legs[..k];
      LandUnitsStick(t, transfer, to, legs[..|legs| - 1], k, uuid);
    }
  }

  lemma {:induction false} LandBulkSticks(t: Tables, sent: seq<Movement>, transfer: Id, to: Id, variants: seq<Id>, k: nat, uuid: nat -> Id)
    requires k <= |variants| && LandBulk(t, sent, transfer, to, variants[..k], uuid).Err?
    ensures LandBulk(t, sent, transfer, to, variants, uuid) == LandBulk(t, sent, transfer, to, variants[..k], uuid)
  {
    hide Settle, BulkSum;
    if k == |variants| {
      assert variants[..k] == variants;
    } else {
      assert variants[..|variants| - 1][..k] == variants[..k];
      LandBulkSticks(t, sent, transfer, to, variants[..|variants| - 1], k, uuid);
    }
  }

  lemma {:induction false} ReserveLinesStick(t: Tables, order: Id, site: Id, lines: seq<OrderLine>, k: nat,
                                             expiresAt: Option<int>, lineId: nat -> Id)
    requires k <= |lines| && ReserveLines(t, order, site, lines[..k], expiresAt, lineId).Err?
    ensures ReserveLines(t, order, site, lines, expiresAt, lineId) == ReserveLines(t, order, site, lines[..k], expiresAt, lineId)
  {
    hide Settle;
    if k == |lines| {
      assert lines[..k] == lines;
    } else {
      assert lines[..|lines| - 1][..k] == lines[..k];
      ReserveLinesStick(t, order, site, lines[..|lines| - 1], k, expiresAt, lineId);
    }
  }

  lemma {:induction false} ReleaseRowsStick(t: Tables, order: Id, n: nat, k: nat, uuid: nat -> Id)
    requires k <= n <= |t.reservations| && ReleaseRows(t, order, k, uuid).Err?
    ensures ReleaseRows(t, order, n, uuid) == ReleaseRows(t, order, k, uuid)
  {
    hide ReleaseRow;
    if k < n {
      ReleaseRowsStick(t, order, n - 1, k, uuid);
    }
  }

  // ---------------------------------------------------------------- imports and the janitor, over many orders

  datatype ImportSummary = ImportSummary(imported: seq<Id>, duplicates: seq<Id>, failed: seq<(Id, StockError)>, warnings: seq<Id>)

  /** The summary after one more order; an acknowledgement that fails becomes a warning. */
  function Noted(s: ImportSummary, external: Id, outcome: ImportOutcome, ackFails: Id -> bool): ImportSummary {
    match outcome
    case Duplicate => s.(duplicates := s.duplicates + [external])
    case Failed(e) => s.(failed := s.failed + [(external, e)])
    case Imported =>
      s.(imported := s.imported + [external], warnings := if ackFails(external) then s.warnings + [external] else s.warnings)
  }

  /** `importOrders` over the first `n` orders. */
  function ImportAll(shop: Shop, t: Tables, channel: Id, orders: seq<ChannelOrder>, n: nat, newId: nat -> Id,
                     hash: string -> Id, ackFails: Id -> bool): (Tables, ImportSummary)
    requires n <= |orders|
  {
    if n == 0 then (t, ImportSummary([], [], [], []))
    else
      var (before, s) := ImportAll(shop, t, channel, orders, n - 1, newId, hash, ackFails);
      var (after, outcome) := ImportOne(shop, before, channel, orders[n - 1], newId(n - 1), hash);
      (after, Noted(s, orders[n - 1].external, outcome, ackFails))
  }

  /** Every pulled order is reported exactly once, and only imported ones are acknowledged. */
  lemma {:induction false} EveryOrderIsReported(shop: Shop, t: Tables, channel: Id, orders: seq<ChannelOrder>, n: nat,
                                                newId: nat -> Id, hash: string -> Id, ackFails: Id -> bool)
    requires n <= |orders|
    ensures var s := ImportAll(shop, t, channel, orders, n, newId, hash, ackFails).1;
      |s.imported| + |s.duplicates| + |s.failed| == n && |s.warnings| <= |s.imported|
  {
    hide ImportOne;
    if n > 0 {
      EveryOrderIsReported(shop, t, channel, orders, n - 1, newId, hash, ackFails);
    }
  }

  // ---------------------------------------------------------------- the tables

  class StockDatabase {
    var levels: map<Bucket, int>
    var movements: seq<Movement>
    var units: seq<StockUnit>
    var transfers: map<Id, Transfer>
    var orders: map<Id, SalesOrder>
    var reservations: seq<Hold>
    var approvals: map<Id, Approval>

    function View(): Tables
      reads this
    {
      Tables(Stock(levels, movements), units, transfers, orders, reservations, approvals)
    }

    constructor ()
      ensures View() == EMPTY
    {
      levels, movements, units := map[], [], [];
      transfers, orders, reservations, approvals := map[], map[], [], map[];
    }

    /** ROLLBACK: put every table back to where the transaction began. */
    method Rollback(before: Tables)
      modifies this
      ensures View() == before
    {
      levels, movements, units := before.stock.levels, before.stock.movements, before.units;
      transfers, orders := before.transfers, before.orders;
      reservations, approvals := before.reservations, before.approvals;
    }

    /** Insert the ledger row, debit, credit; a failure leaves the rest to the caller's rollback. */
    method Post(m: Movement) returns (failure: Option<StockError>)
      modifies this`levels, this`movements
      ensures var r := Settle(old(View()), m);
        if r.Ok? then failure.None? && View() == r.value else failure == Some(r.error)
    {
      hide ShapeError;
      var shape := ShapeError(m);
      if shape.Some? {
        return Some(Refused(shape.value));
      }
      if m.id in Ids(movements) {
        return Some(Refused(DuplicateMovement));
      }
      movements := movements + [m];
      if m.from.Some? {
        var source := FromBucket(m);
        if source !in levels || levels[source] - m.qty < 0 {
          return Some(Refused(InsufficientStock));
        }
        levels := levels[source := levels[source] - m.qty];
      }
      if m.to.Some? {
        var target := ToBucket(m);
        levels := levels[target := (if target in levels then levels[target] else 0) + m.qty];
      }
      failure := None;
    }

    // -------------------------------------------------------------- receiving

    method ReceiveUnitRow(grn: Id, location: Id, variant: Id, n: NewUnit, uuid: nat -> Id, unitId: nat -> Id)
      returns (failure: Option<StockError>)
      modifies this`levels, this`movements, this`units
      ensures var r := ReceiveUnit(old(View()), grn, location, variant, n, uuid, unitId);
        if r.Ok? then failure.None? && View() == r.value else failure == Some(r.error)
    {
      hide Settle, ImeiTaken, SerialTaken, ValidImei, Find;
      if (n.imei1.Some? && !ValidImei(n.imei1.value)) || (n.imei2.Some? && !ValidImei(n.imei2.value)) {
        return Some(Refused(InvalidImei));
      }
      if n.imei1.None? && n.serial.None? {
        return Some(Refused(SerializedRule));
      }
      var id := unitId(|movements|);
      if ImeiTaken(units, n) {
        return Some(Refused(DuplicateImei));
      }
      if SerialTaken(units, variant, n) || Find(units, id).Some? {
        return Some(ConstraintViolated);
      }
      units := units + [StockUnit(id, variant, n.imei1, n.imei2, n.serial, InStock, Some(location))];
      failure := Post(ReceiptOf(grn, location, variant, Some(id), WHOLE, uuid(|movements|)));
    }

    /** One receiving line: unit by unit for a serialized variant, by quantity otherwise. */
    method ReceiveLineRows(shop: Shop, grn: Id, location: Id, line: ReceiveLine, uuid: nat -> Id, unitId: nat -> Id)
      returns (failure: Option<StockError>)
      modifies this`levels, this`movements, this`units
      ensures var r := ReceiveOne(shop, old(View()), grn, location, line, uuid, unitId);
        if r.Ok? then failure.None? && View() == r.value else failure == Some(r.error)
    {
      hide Settle, ReceiveUnit;
      ghost var t := View();
      if line.variant !in shop.tracking {
        return Some(Refused(InvalidShape));
      }
      if !shop.Serialized(line.variant) {
        if line.qty.None? || line.qty.value <= 0 {
          return Some(Refused(InvalidShape));
        }
        failure := Post(ReceiptOf(grn, location, line.variant, None, line.qty.value, uuid(|movements|)));
        return;
      }
      if line.units == [] {
        return Some(Refused(SerializedRule));
      }
      var i := 0;
      while i < |line.units|
        invariant 0 <= i <= |line.units|
        invariant ReceiveUnits(t, grn, location, line.variant, line.units[..i], uuid, unitId) == Ok(View())
      {
        assert line.units[..i + 1][..i] == line.units[..i];
        failure := ReceiveUnitRow(grn, location, line.variant, line.units[i], uuid, unitId);
        if failure.Some? {
          ReceiveUnitsStick(t, grn, location, line.variant, line.units, i + 1, uuid, unitId);
          return;
        }
        i := i + 1;
      }
      assert line.units[..i] == line.units;
      failure := None;
    }

    /** `receive`: all lines or none. */
    method ReceiveGoods(shop: Shop, grn: Id, location: Id, lines: seq<ReceiveLine>, uuid: nat -> Id, unitId: nat -> Id)
      returns (failure: Option<StockError>)
      modifies this
      ensures Transacted(old(View()), Received(shop, old(View()), grn, location, lines, uuid, unitId), View(), failure)
    {
      hide ReceiveOne;
      if lines == [] {
        return Some(Refused(InvalidShape));
      }
      var begin := View();
      var i := 0;
      while i < |lines|
        invariant 0 <= i <= |lines|
        invariant ReceiveLines(shop, begin, grn, location, lines[..i], uuid, unitId) == Ok(View())
      {
        assert lines[..i + 1][..i] == lines[..i];
        failure := ReceiveLineRows(shop, grn, location, lines[i], uuid, unitId);
        if failure.Some? {
          ReceiveLinesStick(shop, begin, grn, location, lines, i + 1, uuid, unitId);
          Rollback(begin);
          return;
        }
        i := i + 1;
      }
      assert lines[..i] == lines;
      failure := None;
    }

    // -------------------------------------------------------------- transfers

    method DispatchUnitRow(transfer: Id, head: Transfer, variant: Id, unit: Id, uuid: nat -> Id) returns (failure: Option<StockError>)
      modifies this`levels, this`movements, this`units
      ensures var r := DispatchUnit(old(View()), transfer, head, variant, unit, uuid);
        if r.Ok? then failure.None? && View() == r.value else failure == Some(r.error)
    {
      hide Settle, Find;
      var found := Find(units, unit);
      if found.None? {
        return Some(UnitCannotMove);
      }
      var u := units[found.value];
      if u.variant != variant || u.state != InStock || u.location != Some(head.from) {
        return Some(UnitCannotMove);
      }
      units := units[found.value := u.(state := OnTheWay, location := Some(head.to))];
      failure := Post(OutOf(transfer, head, variant, Some(unit), WHOLE, uuid(|movements|)));
    }

    method DispatchLineRows(shop: Shop, transfer: Id, head: Transfer, line: TransferLine, uuid: nat -> Id)
      returns (failure: Option<StockError>)
      modifies this`levels, this`movements, this`units
      ensures var r := DispatchLine(shop, old(View()), transfer, head, line, uuid);
        if r.Ok? then failure.None? && View() == r.value else failure == Some(r.error)
    {
      hide Settle, DispatchUnit;
      ghost var t := View();
      if line.variant !in shop.tracking {
        return Some(BadState);
      }
      if !shop.Serialized(line.variant) {
        failure := Post(OutOf(transfer, head, line.variant, None, line.qty, uuid(|movements|)));
        return;
      }
      if WHOLE * |line.units| != line.qty {
        return Some(UnitCannotMove);
      }
      var i := 0;
      while i < |line.units|
        invariant 0 <= i <= |line.units|
        invariant DispatchUnits(t, transfer, head, line.variant, line.units[..i], uuid) == Ok(View())
      {
        assert line.units[..i + 1][..i] == line.units[..i];
        failure := DispatchUnitRow(transfer, head, line.variant, line.units[i], uuid);
        if failure.Some? {
          DispatchUnitsStick(t, transfer, head, line.variant, line.units, i + 1, uuid);
          return;
        }
        i := i + 1;
      }
      assert line.units[..i] == line.units;
      failure := None;
    }

    /** `dispatchTransfer`: header and every line, or nothing. */
    method DispatchTransfer(shop: Shop, transfer: Id, from: Id, to: Id, lines: seq<TransferLine>, uuid: nat -> Id)
      returns (failure: Option<StockError>)
      modifies this
      ensures Transacted(old(View()), Dispatched(shop, old(View()), transfer, from, to, lines, uuid), View(), failure)
    {
      hide DispatchLine;
      if transfer in transfers || from == to {
        return Some(ConstraintViolated);
      }
      var begin := View();
      var head := Transfer(from, to, false);
      transfers := transfers[transfer := head];
      ghost var t := View();
      var i := 0;
      while i < |lines|
        invariant 0 <= i <= |lines|
        invariant DispatchLines(shop, t, transfer, head, lines[..i], uuid) == Ok(View())
      {
        assert lines[..i + 1][..i] == lines[..i];
        failure := DispatchLineRows(shop, transfer, head, lines[i], uuid);
        if failure.Some? {
          DispatchLinesStick(shop, t, transfer, head, lines, i + 1, uuid);
          Rollback(begin);
          return;
        }
        i := i + 1;
      }
      assert lines[..i] == lines;
      failure := None;
    }

    method LandUnitRow(transfer: Id, to: Id, leg: Movement, uuid: nat -> Id) returns (failure: Option<StockError>)
      requires leg.unit.Some?
      modifies this`levels, this`movements, this`units
      ensures var r := LandUnit(old(View()), transfer, to, leg, uuid);
        if r.Ok? then failure.None? && View() == r.value else failure == Some(r.error)
    {
      hide Settle, Find;
      var found := Find(units, leg.unit.value);
      if found.Some? && units[found.value].state == OnTheWay {
        units := units[found.value := units[found.value].(state := InStock, location := Some(to))];
      }
      failure := Post(InOf(transfer, to, leg.variant, leg.unit, WHOLE, uuid(|movements|)));
    }

    method LandUnitRows(transfer: Id, to: Id, legs: seq<Movement>, uuid: nat -> Id) returns (failure: Option<StockError>)
      requires forall m :: m in legs ==> m.unit.Some?
      modifies this`levels, this`movements, this`units
      ensures var r := LandUnits(old(View()), transfer, to, legs, uuid);
        if r.Ok? then failure.None? && View() == r.value else failure == Some(r.error)
    {
      hide LandUnit;
      ghost var t := View();
      var i := 0;
      while i < |legs|
        invariant 0 <= i <= |legs|
        invariant LandUnits(t, transfer, to, legs[..i], uuid) == Ok(View())
      {
        assert legs[..i + 1][..i] == legs[..i];
        failure := LandUnitRow(transfer, to, legs[i], uuid);
        if failure.Some? {
          LandUnitsStick(t, transfer, to, legs, i + 1, uuid);
          return;
        }
        i := i + 1;
      }
      assert legs[..i] == legs;
      failure := None;
    }

    method LandBulkRows(transfer: Id, to: Id, ghost sent: seq<Movement>, sums: seq<(Id, int)>, uuid: nat -> Id)
      returns (failure: Option<StockError>)
      requires |sums| == |BulkVariants(sent, transfer)|
      requires forall k :: 0 <= k < |sums| ==>
        sums[k] == (BulkVariants(sent, transfer)[k], BulkSum(sent, transfer, BulkVariants(sent, transfer)[k]))
      modifies this`levels, this`movements
      ensures var r := LandBulk(old(View()), sent, transfer, to, BulkVariants(sent, transfer), uuid);
        if r.Ok? then failure.None? && View() == r.value else failure == Some(r.error)
    {
      hide Settle, BulkSum, BulkVariants;
      ghost var t, variants := View(), BulkVariants(sent, transfer);
      var i := 0;
      while i < |sums|
        invariant 0 <= i <= |sums|
        invariant LandBulk(t, sent, transfer, to, variants[..i], uuid) == Ok(View())
      {
        assert variants[..i + 1][..i] == variants[..i];
        failure := Post(InOf(transfer, to, sums[i].0, None, sums[i].1, uuid(|movements|)));
        if failure.Some? {
          LandBulkSticks(t, sent, transfer, to, variants, i + 1, uuid);
          return;
        }
        i := i + 1;
      }
      assert variants[..i] == variants;
      failure := None;
    }

    /** `receiveTransfer`: land every unit and quantity that was dispatched, then close the transfer. */
    method ReceiveTransfer(transfer: Id, uuid: nat -> Id) returns (failure: Option<StockError>)
      modifies this
      ensures Transacted(old(View()), TransferReceived(old(View()), transfer, uuid), View(), failure)
    {
      hide LandUnits, LandBulk, UnitLegs, BulkVariants, BulkSum;
      if transfer !in transfers {
        return Some(TransferNotFound);
      }
      if transfers[transfer].received {
        return Some(BadState);
      }
      var begin := View();
      var to := transfers[transfer].to;
      var legs := UnitLegs(movements, transfer);
      var variants := BulkVariants(movements, transfer);
      var sums := seq(|variants|, k requires 0 <= k < |variants| => (variants[k], BulkSum(begin.stock.movements, transfer, variants[k])));
      failure := LandUnitRows(transfer, to, legs, uuid);
      if failure.Some? {
        Rollback(begin);
        return;
      }
      failure := LandBulkRows(transfer, to, begin.stock.movements, sums, uuid);
      if failure.Some? {
        Rollback(begin);
        return;
      }
      transfers := transfers[transfer := transfers[transfer].(received := true)];
    }

    // -------------------------------------------------------------- repairs

    method SendUnitToRepair(unit: Id, uuid: nat -> Id) returns (failure: Option<StockError>)
      modifies this
      ensures Transacted(old(View()), SentToRepair(old(View()), unit, uuid), View(), failure)
    {
      hide Settle, Find;
      var begin := View();
      var found := Find(units, unit);
      if found.None? {
        return Some(Refused(SerializedRule));
      }
      var u := units[found.value];
      if !CanTransition(u.state, InRepair) {
        return Some(Refused(InvalidTransition));
      }
      if u.location.None? {
        return Some(Refused(SerializedRule));
      }
      SettleCommutes(begin, units[found.value := MovedUnit(u, InRepair, u.location.value)],
                     RepairOutOf(u, u.location.value, uuid(|movements|)));
      failure := Post(RepairOutOf(u, u.location.value, uuid(|movements|)));
      if failure.Some? {
        Rollback(begin);
        return;
      }
      units := units[found.value := u.(state := InRepair)];
      assert units == begin.units[found.value := MovedUnit(u, InRepair, u.location.value)];
    }

    method TakeUnitFromRepair(unit: Id, uuid: nat -> Id) returns (failure: Option<StockError>)
      modifies this
      ensures Transacted(old(View()), BackFromRepair(old(View()), unit, uuid), View(), failure)
    {
      hide Settle, Find;
      var begin := View();
      var found := Find(units, unit);
      if found.None? {
        return Some(Refused(SerializedRule));
      }
      var u := units[found.value];
      if !CanTransition(u.state, InStock) || u.state != InRepair {
        return Some(Refused(InvalidTransition));
      }
      if u.location.None? {
        return Some(Refused(SerializedRule));
      }
      SettleCommutes(begin, units[found.value := MovedUnit(u, InStock, u.location.value)],
                     RepairInOf(u, u.location.value, uuid(|movements|)));
      failure := Post(RepairInOf(u, u.location.value, uuid(|movements|)));
      if failure.Some? {
        Rollback(begin);
        return;
      }
      units := units[found.value := u.(state := InStock)];
      assert units == begin.units[found.value := MovedUnit(u, InStock, u.location.value)];
    }

    // -------------------------------------------------------------- reservations

    method ReserveRows(order: Id, site: Id, lines: seq<OrderLine>, expiresAt: Option<int>, lineId: nat -> Id)
      returns (failure: Option<StockError>)
      modifies this`levels, this`movements, this`reservations
      ensures var r := ReserveLines(old(View()), order, site, lines, expiresAt, lineId);
        if r.Ok? then failure.None? && View() == r.value else failure == Some(r.error)
    {
      hide Settle;
      ghost var t := View();
      var i := 0;
      while i < |lines|
        invariant 0 <= i <= |lines|
        invariant ReserveLines(t, order, site, lines[..i], expiresAt, lineId) == Ok(View())
      {
        assert lines[..i + 1][..i] == lines[..i];
        failure := Post(ReservationOf(order, site, lines[i], lineId(i)));
        if failure.Some? {
          ReserveLinesStick(t, order, site, lines, i + 1, expiresAt, lineId);
          return;
        }
        reservations := reservations + [Hold(order, lines[i].variant, site, lines[i].qty, true, expiresAt)];
        i := i + 1;
      }
      assert lines[..i] == lines;
      failure := None;
    }

    /** One marketplace order, all or nothing. */
    method ImportOrder(shop: Shop, channel: Id, order: ChannelOrder, newId: Id, hash: string -> Id) returns (outcome: ImportOutcome)
      modifies this
      ensures (View(), outcome) == ImportOne(shop, old(View()), channel, order, newId, hash)
    {
      hide ReserveLines, ChooseSite, Resolved;
      if HasImported(orders, channel, order.external) {
        return Duplicate;
      }
      hide HasImported;
      if order.lines == [] {
        return Failed(NoLines);
      }
      if !shop.hasSystemActor {
        return Failed(NoSystemActor);
      }
      var lines := Resolved(shop.skus, order.lines);
      if lines.None? {
        return Failed(UnknownSku);
      }
      var site := ChooseSite(levels, shop.sites, lines.value);
      if site.None? {
        return Failed(InsufficientEverywhere);
      }
      if newId in orders {
        return Failed(ConstraintViolated);
      }
      var begin := View();
      orders := orders[newId := SalesOrder(Confirmed, Some((channel, order.external)))];
      var failure := ReserveRows(newId, site.value, lines.value, None, (i: nat) => hash(ImportLineKey(channel, order.external, i)));
      if failure.Some? {
        Rollback(begin);
        return Failed(failure.value);
      }
      outcome := Imported;
    }

    /** `importOrders`: each order in its own transaction; acknowledge strictly after it committed. */
    method ImportOrders(shop: Shop, channel: Id, pulled: seq<ChannelOrder>, newId: nat -> Id, hash: string -> Id, ackFails: Id -> bool)
      returns (summary: ImportSummary)
      modifies this
      ensures (View(), summary) == ImportAll(shop, old(View()), channel, pulled, |pulled|, newId, hash, ackFails)
    {
      hide ImportOne;
      summary := ImportSummary([], [], [], []);
      ghost var t := View();
      var i := 0;
      while i < |pulled|
        invariant 0 <= i <= |pulled|
        invariant (View(), summary) == ImportAll(shop, t, channel, pulled, i, newId, hash, ackFails)
      {
        var external := pulled[i].external;
        var outcome := ImportOrder(shop, channel, pulled[i], newId(i), hash);
        match outcome {
          case Duplicate => summary := summary.(duplicates := summary.duplicates + [external]);
          case Failed(e) => summary := summary.(failed := summary.failed + [(external, e)]);
          case Imported =>
            summary := summary.(imported := summary.imported + [external]);
            if ackFails(external) {
              summary := summary.(warnings := summary.warnings + [external]);
            }
        }
        i := i + 1;
      }
    }

    method RetireRows(order: Id)
      modifies this`reservations
      ensures reservations == Retired(old(reservations), order)
    {
      var rs, i := reservations, 0;
      var kept: seq<Hold> := [];
      while i < |rs|
        invariant 0 <= i <= |rs|
        invariant kept == Retired(rs[..i], order)
      {
        kept := kept + [if rs[i].order == order then rs[i].(active := false) else rs[i]];
        assert rs[..i + 1][..i] == rs[..i];
        i := i + 1;
      }
      assert rs[..i] == rs;
      reservations := kept;
    }

    method ReleaseOneRow(order: Id, i: nat, uuid: nat -> Id) returns (failure: Option<StockError>)
      requires i < |reservations|
      modifies this`levels, this`movements, this`reservations
      ensures |reservations| == |old(reservations)|
      ensures var r := ReleaseRow(old(View()), order, i, uuid);
        if r.Ok? then failure.None? && View() == r.value else failure == Some(r.error)
    {
      hide Settle;
      var row := reservations[i];
      if row.order != order || !row.active {
        return None;
      }
      failure := Post(ReleaseOf(row, uuid(|movements|)));
      if failure.None? {
        reservations := reservations[i := row.(active := false)];
      }
    }

    /** The janitor's transaction for one due order. */
    method ExpireOrder(shop: Shop, order: Id, uuid: nat -> Id) returns (released: bool)
      modifies this
      ensures (View(), released) == Expired(shop, old(View()), order, uuid)
    {
      hide ReleaseRow, Retired;
      if order !in orders || orders[order].status != PendingPayment {
        RetireRows(order);
        return false;
      }
      if !shop.hasSystemActor {
        return false;
      }
      var begin := View();
      var i := 0;
      while i < |reservations|
        invariant 0 <= i <= |reservations| == |begin.reservations|
        invariant ReleaseRows(begin, order, i, uuid) == Ok(View())
        invariant orders == begin.orders
      {
        var failure := ReleaseOneRow(order, i, uuid);
        if failure.Some? {
          ReleaseRowsStick(begin, order, |begin.reservations|, i + 1, uuid);
          Rollback(begin);
          return false;
        }
        i := i + 1;
      }
      orders := orders[order := orders[order].(status := Cancelled)];
      released := true;
    }

    /**
     * `runOnce`: one batch of due orders, each in its own transaction. Only orders with an active
     * reservation past its time are touched, and within the limit none of those is left behind.
     */
    method RunJanitor(shop: Shop, now: int, limit: nat, uuid: nat -> Id) returns (released: seq<Id>)
      modifies this
      ensures var batch := Batch(old(reservations), now, limit);
        (View(), released) == ExpireAll(shop, old(View()), batch, |batch|, uuid)
      ensures JanitorRan(old(View()), View(), released, now, limit)
      ensures old(Sound(shop, View()) && FreshIds(uuid, movements)) && |DueOrders(old(reservations), now)| <= limit ==>
        NoneLeft(shop, old(View()), View(), released, now)
    {
      hide Expired, DueOrders, Batch, Sound, FreshIds, IsDue, SettledIn;
      var batch := Batch(reservations, now, limit);
      RanSays(shop, View(), now, limit, uuid);
      released := [];
      ghost var t := View();
      var i := 0;
      while i < |batch|
        invariant 0 <= i <= |batch|
        invariant (View(), released) == ExpireAll(shop, t, batch, i, uuid)
      {
        var cancelled := ExpireOrder(shop, batch[i], uuid);
        if cancelled {
          released := released + [batch[i]];
        }
        i := i + 1;
      }
    }

    // -------------------------------------------------------------- adjustments

    method RequestStockAdjustment(shop: Shop, id: Id, request: AdjustmentRequest, found: bool) returns (failure: Option<StockError>)
      modifies this`approvals
      ensures Transacted(old(View()), Requested(shop, old(View()), id, request, found), View(), failure)
    {
      if request.qty <= 0 {
        return Some(Refused(InvalidShape));
      }
      if request.from != OnHand && request.from != Damaged && request.from != ReturnedPending {
        return Some(Refused(InvalidShape));
      }
      if found {
        return Some(Refused(InvalidShape));
      }
      if request.variant !in shop.tracking {
        return Some(BadState);
      }
      if shop.Serialized(request.variant) {
        return Some(Refused(InvalidShape));
      }
      if id in approvals {
        return Some(ConstraintViolated);
      }
      approvals := approvals[id := Approval(request, Undecided)];
      failure := None;
    }

    method PostStockAdjustment(approval: Id, uuid: nat -> Id) returns (failure: Option<StockError>)
      modifies this
      ensures Transacted(old(View()), Adjusted(old(View()), approval, uuid), View(), failure)
    {
      hide Settle, Spent;
      var begin := View();
      if approval !in approvals || !approvals[approval].decision.Approved? {
        return Some(NotApproved);
      }
      if approvals[approval].decision.decider == approvals[approval].request.requestedBy {
        return Some(NotApproved);
      }
      if Spent(movements, approval) {
        return Some(AlreadyPosted);
      }
      failure := Post(AdjustmentOf(approval, approvals[approval].request, uuid(|movements|)));
      if failure.Some? {
        Rollback(begin);
      }
    }
  }

  /** Posting before or after the unit row is updated comes to the same. */
  lemma SettleCommutes(t: Tables, rows: seq<StockUnit>, m: Movement)
    ensures var staged := Settle(t.(units := rows), m);
      var plain := Settle(t, m);
      && (staged.Ok? <==> plain.Ok?)
      && (staged.Ok? ==> staged.value == plain.value.(units := rows) && plain.value.units == t.units)
      && (staged.Err? ==> staged.error == plain.error)
  {
    hide ShapeError, Moved, Ids;
  }
}
