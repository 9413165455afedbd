/**
 * Gateway payments: intents, webhook deliveries, orders and published events, and each transaction
 * that touches them. A webhook first looks its intent up in a transaction of its own; its effect runs
 * later, under the intent's row lock, and anything may happen in between.
 */
module Payments {
  import opened Common
  import opened Text

  type Id = string

  // ---------------------------------------------------------------- tables

  datatype IntentStatus = Created | Processing | Succeeded | Failed

  datatype Intent = Intent(id: Id, order: Id, gateway: string, ref: string, amount: int, currency: string, status: IntentStatus)

  datatype OrderStatus = Pending | Confirmed | Cancelled

  datatype PayOrder = PayOrder(status: OrderStatus, total: int, currency: string, cod: bool, advanceRequired: int, advancePaid: int)

  datatype RowStatus = Due | Captured | Voided

  datatype Purpose = Sale | CodAdvance | CodCollection

  datatype PayRow = PayRow(order: Id, viaGateway: bool, amount: int, purpose: Purpose, status: RowStatus)

  datatype Published = OrderPaid(order: Id) | OrderExpired(order: Id)

  /** A handler past its lookup. A reconciler's handler carries the amount and currency it checked. */
  datatype Handler = Handler(intent: Id, gateway: string, external: string, success: bool, polled: Option<(int, string)>)

  /** What the reconciler read about an intent when it looked for stuck ones. */
  datatype Snapshot = Snapshot(intent: Id, order: Id, gateway: string, ref: string, amount: int, currency: string)

  /** Which handler captured which intent. */
  datatype Capture = Capture(intent: Id, order: Id, polled: Option<(int, string)>)

  datatype Desk = Desk(orders: map<Id, PayOrder>, intents: seq<Intent>, rows: seq<PayRow>,
                       deliveries: map<(string, string), Id>, outbox: seq<Published>,
                       handlers: map<Id, Handler>, stuck: set<Snapshot>, captures: seq<Capture>)

  datatype PaymentError =
    | OrderNotFound | BadState | IntentExists | IntentNotFound | AdvanceUnpaid | OrderExists

  datatype Outcome = CapturedNow | FailedNow | AlreadyFinal | Duplicate | NotFound

  const EMPTY: Desk := Desk(map[], [], [], map[], [], map[], {}, [])

  predicate Final(s: IntentStatus) {
    s == Succeeded || s == Failed
  }

  function FindIntent(intents: seq<Intent>, id: Id): (r: Option<nat>)
    ensures r.Some? ==> r.value < |intents| && intents[r.value].id == id
  {
    if intents == [] then None
    else if intents[|intents| - 1].id == id then Some(|intents| - 1)
    else FindIntent(intents[..|intents| - 1], id)
  }

  function FindRef(intents: seq<Intent>, gateway: string, ref: string): (r: Option<nat>)
    ensures r.Some? ==> r.value < |intents| && intents[r.value].gateway == gateway && intents[r.value].ref == ref
  {
    if intents == [] then None
    else
      var last := intents[|intents| - 1];
      if last.gateway == gateway && last.ref == ref then Some(|intents| - 1)
      else FindRef(intents[..|intents| - 1], gateway, ref)
  }

  function LiveCount(intents: seq<Intent>, order: Id): nat {
    if intents == [] then 0
    else
      var front, last := LiveCount(intents[..|intents| - 1], order), intents[|intents| - 1];
      if last.order == order && !Final(last.status) then front + 1 else front
  }

  function SucceededCount(intents: seq<Intent>, order: Id): nat {
    if intents == [] then 0
    else
      var front, last := SucceededCount(intents[..|intents| - 1], order), intents[|intents| - 1];
      if last.order == order && last.status == Succeeded then front + 1 else front
  }

  // ---------------------------------------------------------------- placing an order, opening an intent

  /** `sales_order_cod_advance_collected`. */
  predicate AdvanceOk(o: PayOrder) {
    !o.cod || o.status == Pending || o.status == Cancelled || o.advancePaid >= o.advanceRequired
  }

  /** Checkout: what is due now, if anything, becomes one payment row. */
  function Placed(d: Desk, id: Id, o: PayOrder, dueNow: int): Result<Desk, PaymentError> {
    if id in d.orders then Err(OrderExists)
    else if o.status == Cancelled || o.advancePaid != 0 || o.advanceRequired < 0 then Err(BadState)
    else if !AdvanceOk(o) then Err(AdvanceUnpaid)
    else
      var row := PayRow(id, true, dueNow, if o.cod then CodAdvance else Sale, Due);
      Ok(d.(orders := d.orders[id := o], rows := if dueNow > 0 then d.rows + [row] else d.rows))
  }

  /** `createIntent`: one live intent per order, one intent per gateway reference. */
  function Opened(d: Desk, id: Id, order: Id, gateway: string, ref: string, charge: Option<int>): Result<Desk, PaymentError> {
    if order !in d.orders then Err(OrderNotFound)
    else if d.orders[order].status != Pending then Err(BadState)
    else
      var amount := if charge.Some? then charge.value else d.orders[order].total;
      if amount <= 0 || amount > d.orders[order].total then Err(BadState)
      else if FindIntent(d.intents, id).Some? || FindRef(d.intents, gateway, ref).Some? || LiveCount(d.intents, order) > 0
      then Err(IntentExists)
      else Ok(d.(intents := d.intents + [Intent(id, order, gateway, ref, amount, d.orders[order].currency, Created)]))
  }

  // ---------------------------------------------------------------- a webhook: lookup, then effect

  /** The lookup: without an intent nothing is recorded, so the gateway's retry can still succeed. */
  function LookedUp(d: Desk, handler: Id, gateway: string, ref: string, external: string, success: bool,
                    polled: Option<(int, string)>): Result<Desk, PaymentError>
  {
    match FindRef(d.intents, gateway, ref)
    case None => Err(IntentNotFound)
    case Some(i) =>
      Ok(d.(handlers := d.handlers[handler := Handler(d.intents[i].id, gateway, external, success, polled)]))
  }

  function CapturedRows(rows: seq<PayRow>, order: Id): seq<PayRow> {
    if rows == [] then []
    else
      var r := rows[|rows| - 1];
      CapturedRows(rows[..|rows| - 1], order)
      + [if r.order == order && r.viaGateway && r.status == Due then r.(status := Captured) else r]
  }

  function VoidedRows(rows: seq<PayRow>, order: Id): seq<PayRow> {
    if rows == [] then []
    else
      var r := rows[|rows| - 1];
      VoidedRows(rows[..|rows| - 1], order) + [if r.order == order && r.status == Due then r.(status := Voided) else r]
  }

  /** The advance actually collected: summed from captured rows. */
  function AdvancePaid(rows: seq<PayRow>, order: Id): int {
    if rows == [] then 0
    else
      var front, r := AdvancePaid(rows[..|rows| - 1], order), rows[|rows| - 1];
      if r.order == order && r.purpose == CodAdvance && r.status == Captured then front + r.amount else front
  }

  function WithAdvance(o: PayOrder, paid: int): PayOrder {
    if o.cod then o.(advancePaid := paid) else o
  }

  function ConfirmedIfPending(o: PayOrder): PayOrder {
    if o.status == Pending then o.(status := Confirmed) else o
  }

  /** The success branch, once the intent is known to be live. */
  function CaptureEffect(d: Desk, i: nat, h: Handler): Result<Desk, PaymentError>
    requires i < |d.intents|
  {
    var intent := d.intents[i];
    var rows := CapturedRows(d.rows, intent.order);
    if intent.order !in d.orders then Err(OrderNotFound)
    else
      var credited := WithAdvance(d.orders[intent.order], AdvancePaid(rows, intent.order));
      var confirmed := ConfirmedIfPending(credited);
      if !AdvanceOk(credited) || !AdvanceOk(confirmed) then Err(AdvanceUnpaid)
      else
        Ok(d.(intents := d.intents[i := intent.(status := Succeeded)], rows := rows,
              orders := d.orders[intent.order := confirmed],
              deliveries := d.deliveries[(h.gateway, h.external) := h.intent],
              outbox := d.outbox + [OrderPaid(intent.order)],
              captures := d.captures + [Capture(h.intent, intent.order, h.polled)]))
  }

  /** The effect, under the intent's row lock, with the dedupe row in the same transaction. */
  function Applied(d: Desk, h: Handler): Result<(Desk, Outcome), PaymentError> {
    match FindIntent(d.intents, h.intent)
    case None => Ok((d, NotFound))
    case Some(i) =>
      var recorded := d.(deliveries := d.deliveries[(h.gateway, h.external) := h.intent]);
      if (h.gateway, h.external) in d.deliveries then Ok((d, Duplicate))
      else if Final(d.intents[i].status) then Ok((recorded, AlreadyFinal))
      else if !h.success then
        Ok((recorded.(intents := d.intents[i := d.intents[i].(status := Failed)]), FailedNow))
      else
        match CaptureEffect(d, i, h)
        case Err(e) => Err(e)
        case Ok(after) => Ok((after, CapturedNow))
  }

  // ---------------------------------------------------------------- the reconciler

  datatype GatewayStatus =
    | StatusPending | StatusUnknown | StatusFailed | StatusSucceeded(amount: Option<int>, currency: string)

  /** `currency.trim().toUpperCase()`, for the Latin letters currencies use. */
  function Normal(currency: string): string {
    Upper(Trim(currency))
  }

  datatype Exception =
    | GatewayFailed | GatewayUnknown | AmountMismatch | CurrencyMismatch | NoStatusApi | ApplyFailed

  datatype Decision = LeaveAlone | Flag(why: Exception) | Repair(success: bool, polled: Option<(int, string)>)

  /** What a polled status calls for; `None` is a gateway that did not answer. */
  function Decided(s: Snapshot, pollable: bool, status: Option<GatewayStatus>): Decision {
    if !pollable then Flag(NoStatusApi)
    else
      match status
      case None => LeaveAlone
      case Some(StatusPending) => LeaveAlone
      case Some(StatusUnknown) => Flag(GatewayUnknown)
      case Some(StatusFailed) => Repair(false, None)
      case Some(StatusSucceeded(amount, currency)) =>
        if amount.None? || amount.value != s.amount then Flag(AmountMismatch)
        else if Normal(s.currency) != Normal(currency) then Flag(CurrencyMismatch)
        else Repair(true, Some((amount.value, currency)))
  }

  /** The derived idempotency key: stable across runs. */
  function RepairKey(s: Snapshot, success: bool): string {
    "reconcile:" + s.gateway + ":" + s.ref + ":" + (if success then "succeeded" else "failed")
  }

  function SnapshotOf(i: Intent): Snapshot {
    Snapshot(i.id, i.order, i.gateway, i.ref, i.amount, i.currency)
  }

  /** `findStuck`: a snapshot of live intents among those old enough. */
  function Scanned(d: Desk, stale: set<Id>): Desk {
    d.(stuck := d.stuck + set i | 0 <= i < |d.intents| && d.intents[i].id in stale && !Final(d.intents[i].status)
                            :: SnapshotOf(d.intents[i]))
  }

  // ---------------------------------------------------------------- the janitor

  /** Cancel an order still waiting for payment; its due rows are voided. */
  function JanitorCancelled(d: Desk, order: Id): Desk {
    if order !in d.orders || d.orders[order].status != Pending then d
    else
      d.(orders := d.orders[order := d.orders[order].(status := Cancelled)], rows := VoidedRows(d.rows, order),
         outbox := d.outbox + [OrderExpired(order)])
  }

  // ---------------------------------------------------------------- interleavings

  /** Each event is one transaction; any order of events is a possible interleaving. */
  datatype Event =
    | Place(order: Id, row: PayOrder, dueNow: int)
    | Open(intent: Id, order: Id, gateway: string, ref: string, charge: Option<int>)
    | Lookup(handler: Id, gateway: string, ref: string, external: string, success: bool)
    | Effect(handler: Id)
    | Scan(stale: set<Id>)
    | Poll(handler: Id, snapshot: Snapshot, pollable: bool, status: Option<GatewayStatus>)
    | Cancel(order: Id)

  function Committed(d: Desk, r: Result<Desk, PaymentError>): Desk {
    match r case Ok(after) => after case Err(_) => d
  }

  function Step(d: Desk, e: Event): Desk {
    match e
    case Place(order, row, dueNow) => Committed(d, Placed(d, order, row, dueNow))
    case Open(intent, order, gateway, ref, charge) => Committed(d, Opened(d, intent, order, gateway, ref, charge))
    case Lookup(handler, gateway, ref, external, success) =>
      Committed(d, LookedUp(d, handler, gateway, ref, external, success, None))
    case Effect(handler) =>
      if handler !in d.handlers then d
      else (match Applied(d, d.handlers[handler]) case Err(_) => d case Ok((after, _)) => after)
    case Scan(stale) => Scanned(d, stale)
    case Poll(handler, s, pollable, status) =>
      if s !in d.stuck then d
      else
        (match Decided(s, pollable, status)
         case Repair(success, polled) =>
           Committed(d, LookedUp(d, handler, s.gateway, s.ref, RepairKey(s, success), success, polled))
         case _ => d)
    case Cancel(order) => JanitorCancelled(d, order)
  }

  function Run(es: seq<Event>): Desk {
    if es == [] then EMPTY else Step(Run(es[..|es| - 1]), es[|es| - 1])
  }
}
