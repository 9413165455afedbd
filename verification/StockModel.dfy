/**
 * The server's stock tables and what each inventory operation does to them. Every operation is one
 * transaction: it gives the tables after it, or an error and no change. `uuid(n)` stands for the
 * random id drawn while the ledger has `n` rows.
 */
module StockModel {
  import opened Common
  import opened Digits
  import opened Ledger
  import opened Serialized

  // ---------------------------------------------------------------- tables

  datatype StockError =
    | Refused(error: LedgerError)
    | TransferNotFound | UnitCannotMove | BadState | ConstraintViolated
    | NotApproved | AlreadyPosted | ForbiddenRole
    | NoLines | NoSystemActor | UnknownSku | InsufficientEverywhere

  /** The append-only ledger and the read model kept beside it. */
  datatype Stock = Stock(levels: map<Bucket, int>, movements: seq<Movement>)

  datatype StockUnit = StockUnit(id: Id, variant: Id, imei1: Option<Id>, imei2: Option<Id>, serial: Option<Id>,
                                 state: UnitState, location: Option<Id>)

  datatype Transfer = Transfer(from: Id, to: Id, received: bool)

  datatype OrderStatus = PendingPayment | Confirmed | Cancelled

  datatype SalesOrder = SalesOrder(status: OrderStatus, external: Option<(Id, Id)>)

  datatype Hold = Hold(order: Id, variant: Id, location: Id, qty: int, active: bool, expiresAt: Option<int>)

  datatype Decision = Undecided | Approved(decider: Id) | Declined

  datatype AdjustmentRequest = AdjustmentRequest(requestedBy: Id, variant: Id, location: Id, qty: int, from: StockState, writeOff: bool)

  datatype Approval = Approval(request: AdjustmentRequest, decision: Decision)

  datatype Tables = Tables(stock: Stock, units: seq<StockUnit>, transfers: map<Id, Transfer>,
                           orders: map<Id, SalesOrder>, reservations: seq<Hold>, approvals: map<Id, Approval>)

  /** Reference data: whether each variant is serialized, active SKUs, sites in order of preference. */
  datatype Shop = Shop(tracking: map<Id, bool>, skus: map<string, Id>, sites: seq<Id>, hasSystemActor: bool)
  {
    predicate Serialized(variant: Id) {
      variant in tracking && tracking[variant]
    }
  }

  const EMPTY: Tables := Tables(Stock(map[], []), [], map[], map[], [], map[])

  // ---------------------------------------------------------------- posting

  /**
   * `postMovementWith`: shape rules, primary key, then the debit, which must update an existing row
   * that may not fall below zero, then the credit.
   */
  function PostTo(s: Stock, m: Movement): Result<Stock, StockError> {
    if ShapeError(m).Some? then Err(Refused(ShapeError(m).value))
    else if m.id in Ids(s.movements) then Err(Refused(DuplicateMovement))
    else if m.from.Some? && FromBucket(m) !in s.levels then Err(Refused(InsufficientStock))
    else if m.from.Some? && s.levels[FromBucket(m)] - m.qty < 0 then Err(Refused(InsufficientStock))
    else Ok(Stock(Moved(s.levels, m), s.movements + [m]))
  }

  function Settle(t: Tables, m: Movement): Result<Tables, StockError> {
    match PostTo(t.stock, m)
    case Err(e) => Err(e)
    case Ok(s) => Ok(t.(stock := s))
  }

  function NextId(t: Tables, uuid: nat -> Id): Id {
    uuid(|t.stock.movements|)
  }

  // ---------------------------------------------------------------- units

  function Find(units: seq<StockUnit>, id: Id): (r: Option<nat>)
    ensures r.Some? ==> r.value < |units| && units[r.value].id == id
  {
    if units == [] then None
    else if units[|units| - 1].id == id then Some(|units| - 1)
    else Find(units[..|units| - 1], id)
  }

  function MovedUnit(u: StockUnit, state: UnitState, location: Id): StockUnit {
    u.(state := state, location := Some(location))
  }

  // ---------------------------------------------------------------- goods receiving

  datatype NewUnit = NewUnit(imei1: Option<Id>, imei2: Option<Id>, serial: Option<Id>)

  datatype ReceiveLine = ReceiveLine(variant: Id, qty: Option<int>, units: seq<NewUnit>)

  /** The partial unique indexes on the two IMEI columns, each column on its own. */
  predicate ImeiTaken(units: seq<StockUnit>, n: NewUnit) {
    exists i :: 0 <= i < |units| && (
      (n.imei1.Some? && units[i].imei1 == n.imei1) || (n.imei2.Some? && units[i].imei2 == n.imei2))
  }

  predicate SerialTaken(units: seq<StockUnit>, variant: Id, n: NewUnit) {
    exists i :: 0 <= i < |units| && n.serial.Some? && units[i].variant == variant && units[i].serial == n.serial
  }

  function ReceiptOf(grn: Id, location: Id, variant: Id, unit: Option<Id>, qty: int, id: Id): Movement {
    Movement(id, Receipt, variant, unit, qty, None, Some(BucketRef(location, OnHand)), Reference("grn", grn), None)
  }

  function ReceiveUnit(t: Tables, grn: Id, location: Id, variant: Id, n: NewUnit, uuid: nat -> Id, unitId: nat -> Id):
    Result<Tables, StockError>
  {
    var id := unitId(|t.stock.movements|);
    if n.imei1.Some? && !ValidImei(n.imei1.value) then Err(Refused(InvalidImei))
    else if n.imei2.Some? && !ValidImei(n.imei2.value) then Err(Refused(InvalidImei))
    else if n.imei1.None? && n.serial.None? then Err(Refused(SerializedRule))
    else if ImeiTaken(t.units, n) then Err(Refused(DuplicateImei))
    else if SerialTaken(t.units, variant, n) || Find(t.units, id).Some? then Err(ConstraintViolated)
    else
      Settle(t.(units := t.units + [StockUnit(id, variant, n.imei1, n.imei2, n.serial, InStock, Some(location))]),
             ReceiptOf(grn, location, variant, Some(id), WHOLE, NextId(t, uuid)))
  }

  function ReceiveUnits(t: Tables, grn: Id, location: Id, variant: Id, ns: seq<NewUnit>, uuid: nat -> Id, unitId: nat -> Id):
    Result<Tables, StockError>
  {
    if ns == [] then Ok(t)
    else
      match ReceiveUnits(t, grn, location, variant, ns[..|ns| - 1], uuid, unitId)
      case Err(e) => Err(e)
      case Ok(done) => ReceiveUnit(done, grn, location, variant, ns[|ns| - 1], uuid, unitId)
  }

  function ReceiveOne(shop: Shop, t: Tables, grn: Id, location: Id, line: ReceiveLine, uuid: nat -> Id, unitId: nat -> Id):
    Result<Tables, StockError>
  {
    if line.variant !in shop.tracking then Err(Refused(InvalidShape))
    else if shop.Serialized(line.variant) then
      if line.units == [] then Err(Refused(SerializedRule))
      else ReceiveUnits(t, grn, location, line.variant, line.units, uuid, unitId)
    else if line.qty.None? || line.qty.value <= 0 then Err(Refused(InvalidShape))
    else Settle(t, ReceiptOf(grn, location, line.variant, None, line.qty.value, NextId(t, uuid)))
  }

  function ReceiveLines(shop: Shop, t: Tables, grn: Id, location: Id, lines: seq<ReceiveLine>,
                        uuid: nat -> Id, unitId: nat -> Id): Result<Tables, StockError>
  {
    if lines == [] then Ok(t)
    else
      match ReceiveLines(shop, t, grn, location, lines[..|lines| - 1], uuid, unitId)
      case Err(e) => Err(e)
      case Ok(done) => ReceiveOne(shop, done, grn, location, lines[|lines| - 1], uuid, unitId)
  }

  /** `receive`. */
  function Received(shop: Shop, t: Tables, grn: Id, location: Id, lines: seq<ReceiveLine>,
                    uuid: nat -> Id, unitId: nat -> Id): Result<Tables, StockError>
  {
    if lines == [] then Err(Refused(InvalidShape)) else ReceiveLines(shop, t, grn, location, lines, uuid, unitId)
  }

  // ---------------------------------------------------------------- dispatching a transfer

  datatype TransferLine = TransferLine(variant: Id, qty: int, units: seq<Id>)

  function OutOf(transfer: Id, head: Transfer, variant: Id, unit: Option<Id>, qty: int, id: Id): Movement {
    Movement(id, TransferOut, variant, unit, qty, Some(BucketRef(head.from, OnHand)),
             Some(BucketRef(head.to, InTransit)), Reference("transfer", transfer), None)
  }

  function InOf(transfer: Id, to: Id, variant: Id, unit: Option<Id>, qty: int, id: Id): Movement {
    Movement(id, TransferIn, variant, unit, qty, Some(BucketRef(to, InTransit)),
             Some(BucketRef(to, OnHand)), Reference("transfer", transfer), None)
  }

  function DispatchUnit(t: Tables, transfer: Id, head: Transfer, variant: Id, unit: Id, uuid: nat -> Id):
    Result<Tables, StockError>
  {
    match Find(t.units, unit)
    case None => Err(UnitCannotMove)
    case Some(i) =>
      var u := t.units[i];
      if u.variant != variant || u.state != InStock || u.location != Some(head.from) then Err(UnitCannotMove)
      else
        Settle(t.(units := t.units[i := MovedUnit(u, OnTheWay, head.to)]),
               OutOf(transfer, head, variant, Some(unit), WHOLE, NextId(t, uuid)))
  }

  function DispatchUnits(t: Tables, transfer: Id, head: Transfer, variant: Id, units: seq<Id>, uuid: nat -> Id):
    Result<Tables, StockError>
  {
    if units == [] then Ok(t)
    else
      match DispatchUnits(t, transfer, head, variant, units[..|units| - 1], uuid)
      case Err(e) => Err(e)
      case Ok(done) => DispatchUnit(done, transfer, head, variant, units[|units| - 1], uuid)
  }

  function DispatchLine(shop: Shop, t: Tables, transfer: Id, head: Transfer, line: TransferLine, uuid: nat -> Id):
    Result<Tables, StockError>
  {
    if line.variant !in shop.tracking then Err(BadState)
    else if shop.Serialized(line.variant) then
      if WHOLE * |line.units| != line.qty then Err(UnitCannotMove)
      else DispatchUnits(t, transfer, head, line.variant, line.units, uuid)
    else Settle(t, OutOf(transfer, head, line.variant, None, line.qty, NextId(t, uuid)))
  }

  function DispatchLines(shop: Shop, t: Tables, transfer: Id, head: Transfer, lines: seq<TransferLine>, uuid: nat -> Id):
    Result<Tables, StockError>
  {
    if lines == [] then Ok(t)
    else
      match DispatchLines(shop, t, transfer, head, lines[..|lines| - 1], uuid)
      case Err(e) => Err(e)
      case Ok(done) => DispatchLine(shop, done, transfer, head, lines[|lines| - 1], uuid)
  }

  /** `dispatchTransfer`: the header row, then each line. */
  function Dispatched(shop: Shop, t: Tables, transfer: Id, from: Id, to: Id, lines: seq<TransferLine>, uuid: nat -> Id):
    Result<Tables, StockError>
  {
    if transfer in t.transfers || from == to then Err(ConstraintViolated)
    else
      var head := Transfer(from, to, false);
      DispatchLines(shop, t.(transfers := t.transfers[transfer := head]), transfer, head, lines, uuid)
  }

  // ---------------------------------------------------------------- receiving a transfer

  predicate LegOf(m: Movement, transfer: Id) {
    m.kind == TransferOut && m.reference == Reference("transfer", transfer)
  }

  /** The dispatch movements of the transfer that name a unit, in ledger order. */
  function UnitLegs(ms: seq<Movement>, transfer: Id): (legs: seq<Movement>)
    ensures forall m :: m in legs ==> m in ms && LegOf(m, transfer) && m.unit.Some?
  {
    if ms == [] then []
    else
      var front := UnitLegs(ms[..|ms| - 1], transfer);
      if LegOf(ms[|ms| - 1], transfer) && ms[|ms| - 1].unit.Some? then front + [ms[|ms| - 1]] else front
  }

  /** The variants the transfer moved by quantity, each once. */
  function BulkVariants(ms: seq<Movement>, transfer: Id): seq<Id> {
    if ms == [] then []
    else
      var front, m := BulkVariants(ms[..|ms| - 1], transfer), ms[|ms| - 1];
      if LegOf(m, transfer) && m.unit.None? && m.variant !in front then front + [m.variant] else front
  }

  /** `sum(quantity) … GROUP BY variant_id` over the movements that name no unit. */
  function BulkSum(ms: seq<Movement>, transfer: Id, variant: Id): int {
    if ms == [] then 0
    else
      var m := ms[|ms| - 1];
      BulkSum(ms[..|ms| - 1], transfer, variant)
      + (if LegOf(m, transfer) && m.unit.None? && m.variant == variant then m.qty else 0)
  }

  /** `UPDATE stock_unit … WHERE id = $1 AND state = 'in_transit'`. */
  function LandedUnits(units: seq<StockUnit>, unit: Id, to: Id): seq<StockUnit> {
    match Find(units, unit)
    case None => units
    case Some(i) => if units[i].state == OnTheWay then units[i := MovedUnit(units[i], InStock, to)] else units
  }

  function LandUnit(t: Tables, transfer: Id, to: Id, leg: Movement, uuid: nat -> Id): Result<Tables, StockError>
    requires leg.unit.Some?
  {
    Settle(t.(units := LandedUnits(t.units, leg.unit.value, to)),
           InOf(transfer, to, leg.variant, leg.unit, WHOLE, NextId(t, uuid)))
  }

  function LandUnits(t: Tables, transfer: Id, to: Id, legs: seq<Movement>, uuid: nat -> Id): Result<Tables, StockError>
    requires forall m :: m in legs ==> m.unit.Some?
  {
    if legs == [] then Ok(t)
    else
      match LandUnits(t, transfer, to, legs[..|legs| - 1], uuid)
      case Err(e) => Err(e)
      case Ok(done) => LandUnit(done, transfer, to, legs[|legs| - 1], uuid)
  }

  /** Land the quantities; `sent` is the ledger the sums are read from. */
  function LandBulk(t: Tables, sent: seq<Movement>, transfer: Id, to: Id, variants: seq<Id>, uuid: nat -> Id):
    Result<Tables, StockError>
  {
    if variants == [] then Ok(t)
    else
      match LandBulk(t, sent, transfer, to, variants[..|variants| - 1], uuid)
      case Err(e) => Err(e)
      case Ok(done) =>
        var variant := variants[|variants| - 1];
        Settle(done, InOf(transfer, to, variant, None, BulkSum(sent, transfer, variant), NextId(done, uuid)))
  }

  function Closed(t: Tables, transfer: Id): Tables
    requires transfer in t.transfers
  {
    t.(transfers := t.transfers[transfer := t.transfers[transfer].(received := true)])
  }

  /** `receiveTransfer`. */
  function TransferReceived(t: Tables, transfer: Id, uuid: nat -> Id): Result<Tables, StockError> {
    if transfer !in t.transfers then Err(TransferNotFound)
    else if t.transfers[transfer].received then Err(BadState)
    else
      var sent, to := t.stock.movements, t.transfers[transfer].to;
      match LandUnits(t, transfer, to, UnitLegs(sent, transfer), uuid)
      case Err(e) => Err(e)
      case Ok(landed) =>
        match LandBulk(landed, sent, transfer, to, BulkVariants(sent, transfer), uuid)
        case Err(e) => Err(e)
        case Ok(done) => if transfer in done.transfers then Ok(Closed(done, transfer)) else Err(TransferNotFound)
  }

  // ---------------------------------------------------------------- repairs

  function RepairOutOf(u: StockUnit, location: Id, id: Id): Movement {
    Movement(id, RepairOut, u.variant, Some(u.id), WHOLE, Some(BucketRef(location, OnHand)),
             Some(BucketRef(location, Damaged)), Reference("repair", u.id), None)
  }

  function RepairInOf(u: StockUnit, location: Id, id: Id): Movement {
    Movement(id, RepairIn, u.variant, Some(u.id), WHOLE, Some(BucketRef(location, Damaged)),
             Some(BucketRef(location, OnHand)), Reference("repair", u.id), None)
  }

  /** `repairOut`: any state with a transition to in_repair is let through. */
  function SentToRepair(t: Tables, unit: Id, uuid: nat -> Id): Result<Tables, StockError> {
    match Find(t.units, unit)
    case None => Err(Refused(SerializedRule))
    case Some(i) =>
      var u := t.units[i];
      if !CanTransition(u.state, InRepair) then Err(Refused(InvalidTransition))
      else if u.location.None? then Err(Refused(SerializedRule))
      else
        Settle(t.(units := t.units[i := MovedUnit(u, InRepair, u.location.value)]),
               RepairOutOf(u, u.location.value, NextId(t, uuid)))
  }

  /** `repairIn`. */
  function BackFromRepair(t: Tables, unit: Id, uuid: nat -> Id): Result<Tables, StockError> {
    match Find(t.units, unit)
    case None => Err(Refused(SerializedRule))
    case Some(i) =>
      var u := t.units[i];
      if !CanTransition(u.state, InStock) || u.state != InRepair then Err(Refused(InvalidTransition))
      else if u.location.None? then Err(Refused(SerializedRule))
      else
        Settle(t.(units := t.units[i := MovedUnit(u, InStock, u.location.value)]),
               RepairInOf(u, u.location.value, NextId(t, uuid)))
  }

  // ---------------------------------------------------------------- orders and reservations

  datatype OrderLine = OrderLine(variant: Id, qty: int)

  /** The site covers each line on its own from on-hand stock. */
  predicate Covers(levels: map<Bucket, int>, site: Id, lines: seq<OrderLine>) {
    lines == [] || (
      var line := lines[|lines| - 1];
      Covers(levels, site, lines[..|lines| - 1]) && LevelIn(levels, Bucket(line.variant, site, OnHand)) >= line.qty)
  }

  /** The first site, in order of preference, that covers every line. */
  function ChooseSite(levels: map<Bucket, int>, sites: seq<Id>, lines: seq<OrderLine>): (r: Option<Id>)
    ensures r.Some? ==> r.value in sites && Covers(levels, r.value, lines)
    ensures r.None? ==> forall site :: site in sites ==> !Covers(levels, site, lines)
  {
    if sites == [] then None
    else if Covers(levels, sites[0], lines) then Some(sites[0])
    else ChooseSite(levels, sites[1..], lines)
  }

  function ReservationOf(order: Id, site: Id, line: OrderLine, id: Id): Movement {
    Movement(id, MovementType.Reservation, line.variant, None, line.qty, Some(BucketRef(site, OnHand)),
             Some(BucketRef(site, Reserved)), Reference("order", order), None)
  }

  function ReleaseOf(r: Hold, id: Id): Movement {
    Movement(id, Release, r.variant, None, r.qty, Some(BucketRef(r.location, Reserved)),
             Some(BucketRef(r.location, OnHand)), Reference("order", r.order), None)
  }

  /** Reserve the lines one by one: movement, levels, reservation row. */
  function ReserveLines(t: Tables, order: Id, site: Id, lines: seq<OrderLine>, expiresAt: Option<int>, lineId: nat -> Id):
    Result<Tables, StockError>
  {
    if lines == [] then Ok(t)
    else
      match ReserveLines(t, order, site, lines[..|lines| - 1], expiresAt, lineId)
      case Err(e) => Err(e)
      case Ok(done) =>
        var line := lines[|lines| - 1];
        match Settle(done, ReservationOf(order, site, line, lineId(|lines| - 1)))
        case Err(e) => Err(e)
        case Ok(posted) =>
          Ok(posted.(reservations := posted.reservations
                       + [Hold(order, line.variant, site, line.qty, true, expiresAt)]))
  }

  /** A web checkout reserves for an hour; a cash-on-delivery order without an advance confirms at once. */
  function CheckedOut(shop: Shop, t: Tables, order: Id, lines: seq<OrderLine>, confirmed: bool, expiresAt: int,
                      lineId: nat -> Id): Result<Tables, StockError>
  {
    var site := ChooseSite(t.stock.levels, shop.sites, lines);
    if !shop.hasSystemActor then Err(NoSystemActor)
    else if site.None? then Err(Refused(InsufficientStock))
    else if order in t.orders then Err(ConstraintViolated)
    else
      var head := SalesOrder(if confirmed then Confirmed else PendingPayment, None);
      ReserveLines(t.(orders := t.orders[order := head]), order, site.value, lines, Some(expiresAt), lineId)
  }

  datatype ChannelLine = ChannelLine(sku: string, qty: int)

  datatype ChannelOrder = ChannelOrder(external: Id, lines: seq<ChannelLine>)

  function Resolved(skus: map<string, Id>, lines: seq<ChannelLine>): Option<seq<OrderLine>> {
    if lines == [] then Some([])
    else
      var front, line := Resolved(skus, lines[..|lines| - 1]), lines[|lines| - 1];
      if front.None? || line.sku !in skus then None
      else Some(front.value + [OrderLine(skus[line.sku], line.qty)])
  }

  predicate HasImported(orders: map<Id, SalesOrder>, channel: Id, external: Id) {
    exists o :: o in orders && orders[o].external == Some((channel, external))
  }

  /** The text whose hash is the movement id of one imported line. */
  function ImportLineKey(channel: Id, external: Id, line: nat): string {
    Numbered(channel + ":" + external, line)
  }

  datatype ImportOutcome = Imported | Duplicate | Failed(error: StockError)

  /** `importOne` for an order not seen before; `hash` makes movement ids from line keys. */
  function ImportedNew(shop: Shop, t: Tables, channel: Id, order: ChannelOrder, newId: Id, hash: string -> Id):
    Result<Tables, StockError>
  {
    if order.lines == [] then Err(NoLines)
    else if !shop.hasSystemActor then Err(NoSystemActor)
    else
      match Resolved(shop.skus, order.lines)
      case None => Err(UnknownSku)
      case Some(lines) =>
        match ChooseSite(t.stock.levels, shop.sites, lines)
        case None => Err(InsufficientEverywhere)
        case Some(site) =>
          if newId in t.orders then Err(ConstraintViolated)
          else
            ReserveLines(t.(orders := t.orders[newId := SalesOrder(Confirmed, Some((channel, order.external)))]),
                         newId, site, lines, None, (i: nat) => hash(ImportLineKey(channel, order.external, i)))
  }

  function ImportOne(shop: Shop, t: Tables, channel: Id, order: ChannelOrder, newId: Id, hash: string -> Id):
    (Tables, ImportOutcome)
  {
    if HasImported(t.orders, channel, order.external) then (t, Duplicate)
    else
      match ImportedNew(shop, t, channel, order, newId, hash)
      case Err(e) => (t, Failed(e))
      case Ok(done) => (done, Imported)
  }

  /** A captured payment confirms an order that still waits for one. */
  function PaymentConfirmed(t: Tables, order: Id): Tables {
    if order in t.orders && t.orders[order].status == PendingPayment
    then t.(orders := t.orders[order := t.orders[order].(status := Confirmed)])
    else t
  }

  function Retired(rs: seq<Hold>, order: Id): (r: seq<Hold>)
    ensures |r| == |rs|
  {
    if rs == [] then []
    else
      var last := rs[|rs| - 1];
      Retired(rs[..|rs| - 1], order) + [if last.order == order then last.(active := false) else last]
  }

  /** Release one row if it is an active row of the order. */
  function ReleaseRow(t: Tables, order: Id, i: nat, uuid: nat -> Id): (r: Result<Tables, StockError>)
    requires i < |t.reservations|
    ensures r.Ok? ==> |r.value.reservations| == |t.reservations|
  {
    var row := t.reservations[i];
    if row.order != order || !row.active then Ok(t)
    else
      match Settle(t, ReleaseOf(row, NextId(t, uuid)))
      case Err(e) => Err(e)
      case Ok(posted) => Ok(posted.(reservations := posted.reservations[i := row.(active := false)]))
  }

  /** Release the active rows of the order among the first `n`, row by row. */
  function ReleaseRows(t: Tables, order: Id, n: nat, uuid: nat -> Id): (r: Result<Tables, StockError>)
    requires n <= |t.reservations|
    ensures r.Ok? ==> |r.value.reservations| == |t.reservations|
  {
    if n == 0 then Ok(t)
    else
      match ReleaseRows(t, order, n - 1, uuid)
      case Err(e) => Err(e)
      case Ok(done) => ReleaseRow(done, order, n - 1, uuid)
  }

  /** The janitor's transaction for one due order: release and cancel, or retire the rows, or nothing. */
  function Expired(shop: Shop, t: Tables, order: Id, uuid: nat -> Id): (Tables, bool) {
    if order !in t.orders || t.orders[order].status != PendingPayment then
      (t.(reservations := Retired(t.reservations, order)), false)
    else if !shop.hasSystemActor then (t, false)
    else
      match ReleaseRows(t, order, |t.reservations|, uuid)
      case Err(_) => (t, false)
      case Ok(done) =>
        if order in done.orders
        then (done.(orders := done.orders[order := done.orders[order].(status := Cancelled)]), true)
        else (t, false)
  }

  // ---------------------------------------------------------------- adjustments

  /** `requestAdjustment`, past the role check: what may be asked for. */
  function Requested(shop: Shop, t: Tables, id: Id, request: AdjustmentRequest, found: bool): Result<Tables, StockError> {
    if request.qty <= 0 then Err(Refused(InvalidShape))
    else if request.from != OnHand && request.from != Damaged && request.from != ReturnedPending then Err(Refused(InvalidShape))
    else if found then Err(Refused(InvalidShape))
    else if request.variant !in shop.tracking then Err(BadState)
    else if shop.Serialized(request.variant) then Err(Refused(InvalidShape))
    else if id in t.approvals then Err(ConstraintViolated)
    else Ok(t.(approvals := t.approvals[id := Approval(request, Undecided)]))
  }

  /** A second person's decision: `approved_by <> requested_by` is a table constraint. */
  function Decided(t: Tables, id: Id, decider: Id, approve: bool): Result<Tables, StockError> {
    if id !in t.approvals || t.approvals[id].decision != Undecided then Err(NotApproved)
    else if decider == t.approvals[id].request.requestedBy then Err(ConstraintViolated)
    else Ok(t.(approvals := t.approvals[id := t.approvals[id].(decision := if approve then Approved(decider) else Declined)]))
  }

  /** Some movement has already been posted on this approval. */
  predicate Spent(ms: seq<Movement>, approval: Id) {
    ms != [] && (ms[|ms| - 1].approval == Some(approval) || Spent(ms[..|ms| - 1], approval))
  }

  function AdjustmentOf(approval: Id, a: AdjustmentRequest, id: Id): Movement {
    Movement(id, if a.writeOff then WriteOff else MovementType.Adjustment, a.variant, None, a.qty,
             Some(BucketRef(a.location, a.from)), None, Reference("adjustment", approval), Some(approval))
  }

  /** `postAdjustment`, past the role check. */
  function Adjusted(t: Tables, approval: Id, uuid: nat -> Id): Result<Tables, StockError> {
    if approval !in t.approvals || !t.approvals[approval].decision.Approved? then Err(NotApproved)
    else if t.approvals[approval].decision.decider == t.approvals[approval].request.requestedBy then Err(NotApproved)
    else if Spent(t.stock.movements, approval) then Err(AlreadyPosted)
    else Settle(t, AdjustmentOf(approval, t.approvals[approval].request, NextId(t, uuid)))
  }
}
