/** What each payment transaction does, row by row: said over the tables before and after it. */
module PaymentEffects {
  import opened Common
  import opened Payments
  import opened PaymentDesk
  import opened PaymentRuns

  // ---------------------------------------------------------------- payment rows

  /** Exactly the order's own due gateway rows change, and of them only the status. */
  ghost predicate OnlyDueCaptured(before: seq<PayRow>, after: seq<PayRow>, order: Id) {
    && |after| == |before|
    && forall k :: 0 <= k < |before| ==>
         after[k] == if before[k].order == order && before[k].viaGateway && before[k].status == Due
                     then before[k].(status := Captured) else before[k]
  }

  /** Exactly the order's own due rows change, gateway or not, and of them only the status. */
  ghost predicate OnlyDueVoided(before: seq<PayRow>, after: seq<PayRow>, order: Id) {
    && |after| == |before|
    && forall k :: 0 <= k < |before| ==>
         after[k] == if before[k].order == order && before[k].status == Due then before[k].(status := Voided) else before[k]
  }

  lemma {:induction false} CapturedRowByRow(rows: seq<PayRow>, order: Id)
    ensures OnlyDueCaptured(rows, CapturedRows(rows, order), order)
  {
    if rows != [] {
      CapturedRowByRow(rows[..|rows| - 1], order);
    }
  }

  lemma {:induction false} VoidedRowByRow(rows: seq<PayRow>, order: Id)
    ensures OnlyDueVoided(rows, VoidedRows(rows, order), order)
  {
    if rows != [] {
      VoidedRowByRow(rows[..|rows| - 1], order);
    }
  }

  /** Each row counts by itself: a captured advance of the order with its amount, any other not at all. */
  lemma {:induction false} AdvanceCounts(rows: seq<PayRow>, k: nat, order: Id)
    requires k < |rows|
    ensures AdvancePaid([], order) == 0
    ensures AdvancePaid(rows, order) == AdvancePaid(rows[..k] + rows[k + 1..], order)
      + (if rows[k].order == order && rows[k].purpose == CodAdvance && rows[k].status == Captured then rows[k].amount else 0)
  {
    var front, rest := rows[..|rows| - 1], rows[..k] + rows[k + 1..];
    if k == |front| {
      assert rest == front;
    } else {
      AdvanceCounts(front, k, order);
      assert rest[..|rest| - 1] == front[..k] + front[k + 1..];
    }
  }

  // ---------------------------------------------------------------- looking an intent up

  lemma {:induction false} FindIntentIff(intents: seq<Intent>, id: Id)
    ensures FindIntent(intents, id).None? <==> forall i :: 0 <= i < |intents| ==> intents[i].id != id
  {
    if FindIntent(intents, id).None? {
      NoIntent(intents, id);
    }
  }

  lemma {:induction false} FindRefIff(intents: seq<Intent>, gateway: string, ref: string)
    ensures FindRef(intents, gateway, ref).None? <==>
      forall i :: 0 <= i < |intents| ==> !(intents[i].gateway == gateway && intents[i].ref == ref)
  {
    if FindRef(intents, gateway, ref).None? {
      NoRef(intents, gateway, ref);
    }
  }

  lemma {:induction false} NoneLiveIff(intents: seq<Intent>, order: Id)
    ensures LiveCount(intents, order) == 0 <==>
      forall i :: 0 <= i < |intents| && intents[i].order == order ==> intents[i].status in {Succeeded, Failed}
  {
    if intents != [] {
      var front := intents[..|intents| - 1];
      NoneLiveIff(front, order);
      assert forall i :: 0 <= i < |front| ==> front[i] == intents[i];
    }
  }

  // ---------------------------------------------------------------- placing and opening

  /** An order is placed with at most one row, due now through the gateway and marked as what it pays for. */
  lemma PlacedSays(d: Desk, id: Id, o: PayOrder, dueNow: int)
    ensures Placed(d, id, o, dueNow).Ok? <==>
      && id !in d.orders && o.status != Cancelled && o.advancePaid == 0 && o.advanceRequired >= 0
      && (o.cod && o.status == Confirmed ==> o.advanceRequired == 0)
    ensures Placed(d, id, o, dueNow) == Err(OrderExists) <==> id in d.orders
    ensures Placed(d, id, o, dueNow) == Err(AdvanceUnpaid) <==>
      && id !in d.orders && o.status != Cancelled && o.advancePaid == 0
      && o.cod && o.status == Confirmed && o.advanceRequired > 0
    ensures Placed(d, id, o, dueNow).Ok? || Placed(d, id, o, dueNow).error in {OrderExists, BadState, AdvanceUnpaid}
    ensures Placed(d, id, o, dueNow).Ok? ==>
      var after := Placed(d, id, o, dueNow).value;
      && after.orders == d.orders[id := o]
      && after.rows == d.rows + (if dueNow > 0 then [PayRow(id, true, dueNow, if o.cod then CodAdvance else Sale, Due)] else [])
      && after == d.(orders := after.orders, rows := after.rows)
  {
    assert d.rows + [] == d.rows;
  }

  /** What an intent would charge. */
  function Charge(d: Desk, order: Id, charge: Option<int>): int
    requires order in d.orders
  {
    match charge case Some(amount) => amount case None => d.orders[order].total
  }

  /**
   * An intent opens exactly when its order waits for payment, the charge is positive and within the
   * total, and neither its id, its gateway reference nor another live intent of the order is in the way.
   */
  lemma OpenedSays(d: Desk, id: Id, order: Id, gateway: string, ref: string, charge: Option<int>)
    ensures Opened(d, id, order, gateway, ref, charge).Ok? <==>
      && order in d.orders && d.orders[order].status == Pending
      && 0 < Charge(d, order, charge) <= d.orders[order].total
      && forall i :: 0 <= i < |d.intents| ==>
           && d.intents[i].id != id && !(d.intents[i].gateway == gateway && d.intents[i].ref == ref)
           && (d.intents[i].order == order ==> d.intents[i].status in {Succeeded, Failed})
    ensures Opened(d, id, order, gateway, ref, charge).Ok? ==>
      Opened(d, id, order, gateway, ref, charge).value == d.(intents := d.intents
        + [Intent(id, order, gateway, ref, Charge(d, order, charge), d.orders[order].currency, Created)])
    ensures Opened(d, id, order, gateway, ref, charge).Ok?
      || Opened(d, id, order, gateway, ref, charge).error in {OrderNotFound, BadState, IntentExists}
    ensures Opened(d, id, order, gateway, ref, charge) == Err(OrderNotFound) <==> order !in d.orders
    ensures Opened(d, id, order, gateway, ref, charge) == Err(BadState) <==>
      order in d.orders && !(d.orders[order].status == Pending && 0 < Charge(d, order, charge) <= d.orders[order].total)
  {
    hide FindIntent, FindRef, LiveCount;
    FindIntentIff(d.intents, id);
    FindRefIff(d.intents, gateway, ref);
    NoneLiveIff(d.intents, order);
  }

  /** A look-up finds the intent the gateway reference names, or answers that there is none. */
  lemma LookedUpSays(d: Desk, handler: Id, gateway: string, ref: string, external: string, success: bool, polled: Option<(int, string)>)
    ensures match LookedUp(d, handler, gateway, ref, external, success, polled)
      case Err(e) => e == IntentNotFound
        && forall i :: 0 <= i < |d.intents| ==> !(d.intents[i].gateway == gateway && d.intents[i].ref == ref)
      case Ok(after) => exists i ::
        && 0 <= i < |d.intents| && d.intents[i].gateway == gateway && d.intents[i].ref == ref
        && after == d.(handlers := d.handlers[handler := Handler(d.intents[i].id, gateway, external, success, polled)])
  {
    hide FindRef;
    FindRefIff(d.intents, gateway, ref);
  }

  // ---------------------------------------------------------------- the effect of a webhook

  /** Only the status of intent `i` changed. */
  ghost predicate OnlyIntent(before: seq<Intent>, after: seq<Intent>, i: nat, status: IntentStatus) {
    && i < |before| == |after|
    && forall k :: 0 <= k < |before| ==> after[k] == if k == i then before[k].(status := status) else before[k]
  }

  /** Only the row of this order changed: confirmed unless it was cancelled, its advance counted anew. */
  ghost predicate OnlyOrderPaid(before: map<Id, PayOrder>, after: map<Id, PayOrder>, order: Id, advance: int) {
    && order in before && after.Keys == before.Keys
    && (forall o :: o in before && o != order ==> after[o] == before[o])
    && after[order] == before[order].(
         status := if before[order].status == Pending then Confirmed else before[order].status,
         advancePaid := if before[order].cod then advance else before[order].advancePaid)
  }

  /** A capture: what it found, and every table after it. */
  ghost predicate Captures(d: Desk, h: Handler, i: nat, after: Desk) {
    && i < |d.intents| && d.intents[i].id == h.intent && d.intents[i].status in {Created, Processing}
    && h.success && (h.gateway, h.external) !in d.deliveries
    && OnlyIntent(d.intents, after.intents, i, Succeeded)
    && OnlyDueCaptured(d.rows, after.rows, d.intents[i].order)
    && OnlyOrderPaid(d.orders, after.orders, d.intents[i].order, AdvancePaid(after.rows, d.intents[i].order))
    && after.deliveries == d.deliveries[(h.gateway, h.external) := h.intent]
    && after.outbox == d.outbox + [OrderPaid(d.intents[i].order)]
    && after.handlers == d.handlers && after.stuck == d.stuck
  }

  lemma CaptureSays(d: Desk, h: Handler) returns (i: nat)
    requires Applied(d, h).Ok? && Applied(d, h).value.1 == CapturedNow
    ensures Captures(d, h, i, Applied(d, h).value.0)
  {
    hide FindIntent, CapturedRows, AdvancePaid;
    i := FindIntent(d.intents, h.intent).value;
    CapturedRowByRow(d.rows, d.intents[i].order);
  }

  /** Every other effect: which one it is, and all it changes. */
  lemma OtherEffectsSay(d: Desk, h: Handler)
    requires Applied(d, h).Ok?
    ensures var after, key := Applied(d, h).value.0, (h.gateway, h.external);
      match Applied(d, h).value.1
      case NotFound => after == d && forall i :: 0 <= i < |d.intents| ==> d.intents[i].id != h.intent
      case Duplicate => after == d && key in d.deliveries
      case AlreadyFinal =>
        && after == d.(deliveries := d.deliveries[key := h.intent]) && key !in d.deliveries
        && exists i :: 0 <= i < |d.intents| && d.intents[i].id == h.intent && d.intents[i].status in {Succeeded, Failed}
      case FailedNow =>
        && !h.success && key !in d.deliveries
        && after == d.(deliveries := d.deliveries[key := h.intent], intents := after.intents)
        && exists i :: 0 <= i < |d.intents| && d.intents[i].id == h.intent && d.intents[i].status in {Created, Processing}
                       && OnlyIntent(d.intents, after.intents, i, Failed)
      case CapturedNow => true
  {
    hide FindIntent, CaptureEffect;
    FindIntentIff(d.intents, h.intent);
    if FindIntent(d.intents, h.intent).Some? {
      var i := FindIntent(d.intents, h.intent).value;
      assert OnlyIntent(d.intents, d.intents[i := d.intents[i].(status := Failed)], i, Failed);
    }
  }

  /** A webhook that captures: the intent it captures is the one its gateway reference names. */
  lemma WebhookSays(d: Desk, gateway: string, ref: string, external: string, success: bool, polled: Option<(int, string)>) returns (i: nat)
    requires Webhook(d, gateway, ref, external, success, polled).Ok?
    requires Webhook(d, gateway, ref, external, success, polled).value.1 == CapturedNow
    ensures i < |d.intents| && d.intents[i].gateway == gateway && d.intents[i].ref == ref && success
    ensures exists k :: Captures(d, Handler(d.intents[i].id, gateway, external, success, polled), k,
                                 Webhook(d, gateway, ref, external, success, polled).value.0)
  {
    hide Applied, FindRef;
    i := FindRef(d.intents, gateway, ref).value;
    var k := CaptureSays(d, Handler(d.intents[i].id, gateway, external, success, polled));
  }

  /** The janitor cancels an order exactly while it waits for payment, voiding its due rows and no other. */
  lemma CancelSays(d: Desk, order: Id)
    ensures var after := JanitorCancelled(d, order);
      if order in d.orders && d.orders[order].status == Pending then
        && after.orders == d.orders[order := d.orders[order].(status := Cancelled)]
        && OnlyDueVoided(d.rows, after.rows, order)
        && after.outbox == d.outbox + [OrderExpired(order)]
        && after == d.(orders := after.orders, rows := after.rows, outbox := after.outbox)
      else after == d
  {
    hide VoidedRows;
    VoidedRowByRow(d.rows, order);
  }

  /** A scan takes up exactly the live intents among the stale ones, each as it stands. */
  lemma ScanSays(d: Desk, stale: set<Id>, s: Snapshot)
    ensures Scanned(d, stale) == d.(stuck := Scanned(d, stale).stuck)
    ensures s in Scanned(d, stale).stuck <==> s in d.stuck || exists i :: 0 <= i < |d.intents| && Stuck(d.intents[i], stale, s)
  {
    if i :| 0 <= i < |d.intents| && Stuck(d.intents[i], stale, s) {
      assert SnapshotOf(d.intents[i]) == s;
    }
  }

  predicate Stuck(i: Intent, stale: set<Id>, s: Snapshot) {
    && i.id in stale && i.status in {Created, Processing}
    && s.intent == i.id && s.order == i.order && s.gateway == i.gateway && s.ref == i.ref
    && s.amount == i.amount && s.currency == i.currency
  }

  // ---------------------------------------------------------------- one stuck intent

  /** The problem is on file once more and open, and nothing else on file changed. */
  ghost predicate FiledOnceMore(before: Filed, after: Filed, intent: Id, why: Exception) {
    && (intent, why) in after && after[(intent, why)].isOpen
    && after[(intent, why)].seen == 1 + (if (intent, why) in before then before[(intent, why)].seen else 0)
    && (forall k :: k in after && k != (intent, why) ==> k in before && after[k] == before[k])
    && (forall k :: k in before ==> k in after)
  }

  /** Everything on file about the intent is closed, and nothing else on file changed. */
  ghost predicate AllClosed(before: Filed, after: Filed, intent: Id) {
    && after.Keys == before.Keys
    && forall k :: k in before ==> after[k] == if k.0 == intent then before[k].(isOpen := false) else before[k]
  }

  /** The gateway confirms the payment of exactly this amount in this currency. */
  predicate Confirms(s: Snapshot, status: GatewayStatus) {
    status.StatusSucceeded? && status.amount == Some(s.amount) && Normal(status.currency) == Normal(s.currency)
  }

  /** What the reconciler does with an answer that calls for no webhook. */
  lemma AnswersWithoutEffect(d: Desk, filed: Filed, s: Snapshot, pollable: bool, status: Option<GatewayStatus>)
    requires !pollable || status.None? || !(status.value.StatusFailed? || Confirms(s, status.value))
    ensures var r := ReconcileOne(d, filed, s, pollable, status);
      && r.desk == d && !r.recorded
      && (if pollable && (status.None? || status.value.StatusPending?) then r.action == LeftAlone && r.filed == filed
          else
            && r.action == WasFlagged
            && FiledOnceMore(filed, r.filed, s.intent,
                 if !pollable then NoStatusApi
                 else if status.value.StatusUnknown? then GatewayUnknown
                 else if status.value.amount != Some(s.amount) then AmountMismatch
                 else CurrencyMismatch))
  {
    hide Normal, Webhook;
  }

  /** What the reconciler calls the outcome of the webhook it played. */
  predicate NamedAs(o: Outcome, a: Action) {
    match o
    case CapturedNow => a == DidCapture
    case FailedNow => a == DidFail
    case AlreadyFinal => a == WasFinal
    case Duplicate => a == WasDuplicate
    case NotFound => a == LeftAlone
  }

  /** A failed payment is carried out as a failure and put on file, whatever comes of it. */
  lemma FailedAnswerSays(d: Desk, filed: Filed, s: Snapshot)
    ensures var r := ReconcileOne(d, filed, s, true, Some(StatusFailed));
      var w := Webhook(d, s.gateway, s.ref, RepairKey(s, false), false, None);
      && FiledOnceMore(filed, r.filed, s.intent, if w.Ok? then GatewayFailed else ApplyFailed)
      && (if w.Ok? then r.desk == w.value.0 && r.recorded && NamedAs(w.value.1, r.action)
          else r.desk == d && !r.recorded && r.action == WasFlagged)
      && r.action != DidCapture
  {
    hide Applied, RepairKey;
    FailureNeverCaptures(d, s.gateway, s.ref, RepairKey(s, false));
  }

  lemma FailureNeverCaptures(d: Desk, gateway: string, ref: string, external: string)
    ensures var w := Webhook(d, gateway, ref, external, false, None); w.Ok? ==> w.value.1 != CapturedNow
  {
    hide FindRef, FindIntent;
  }

  /** A confirmed payment is carried out as a success; a capture closes what was on file, a failed one files that. */
  lemma ConfirmedAnswerSays(d: Desk, filed: Filed, s: Snapshot, status: GatewayStatus)
    requires Confirms(s, status)
    ensures var r := ReconcileOne(d, filed, s, true, Some(status));
      var w := Webhook(d, s.gateway, s.ref, RepairKey(s, true), true, Some((s.amount, status.currency)));
      && !r.recorded
      && (if w.Err? then r.desk == d && r.action == WasFlagged && FiledOnceMore(filed, r.filed, s.intent, ApplyFailed)
          else
            && r.desk == w.value.0 && NamedAs(w.value.1, r.action)
            && (if w.value.1 == CapturedNow then r.action == DidCapture && AllClosed(filed, r.filed, s.intent) else r.filed == filed))
  {
    hide Normal, Applied, RepairKey;
  }

  /** The reconciler captures only what the gateway confirms, to the unit and in the same currency. */
  lemma CaptureIsConfirmed(d: Desk, filed: Filed, s: Snapshot, pollable: bool, status: Option<GatewayStatus>)
    requires ReconcileOne(d, filed, s, pollable, status).action == DidCapture
    ensures pollable && status.Some? && Confirms(s, status.value)
  {
    hide Normal, Webhook;
    if pollable && status == Some(StatusFailed) {
      FailedAnswerSays(d, filed, s);
    } else if !(pollable && status.Some? && Confirms(s, status.value)) {
      AnswersWithoutEffect(d, filed, s, pollable, status);
    }
  }

  /** Repairs of different payments, or of different outcomes, never share a delivery key of one gateway. */
  lemma RepairKeysDiffer(s: Snapshot, t: Snapshot, a: bool, b: bool)
    requires s.gateway == t.gateway && RepairKey(s, a) == RepairKey(t, b)
    ensures s.ref == t.ref && a == b
  {
    var k, l := RepairKey(s, a), RepairKey(t, b);
    var x, y := if a then "succeeded" else "failed", if b then "succeeded" else "failed";
    var head := "reconcile:" + s.gateway + ":";
    assert k == head + (s.ref + ":" + x) && l == head + (t.ref + ":" + y);
    assert k[|head|..] == s.ref + ":" + x && l[|head|..] == t.ref + ":" + y;
    assert k[|k| - 4] == x[|x| - 4] && l[|l| - 4] == y[|y| - 4];
    assert a == b;
    assert s.ref == (s.ref + ":" + x)[..|s.ref|] && t.ref == (t.ref + ":" + y)[..|t.ref|];
  }

  // ---------------------------------------------------------------- captures of a run, by the poll behind them

  predicate Makes(e: Event, handler: Id) {
    (e.Lookup? || e.Poll?) && e.handler == handler
  }

  lemma {:induction false} NotMadeYet(es: seq<Event>, handler: Id)
    requires forall i :: 0 <= i < |es| ==> !Makes(es[i], handler)
    ensures handler !in Run(es).handlers
  {
    if es != [] {
      var front := es[..|es| - 1];
      assert forall i :: 0 <= i < |front| ==> front[i] == es[i];
      NotMadeYet(front, handler);
      OthersStay(Run(front), es[|es| - 1], handler);
    }
  }

  lemma OthersStay(d: Desk, e: Event, handler: Id)
    requires !Makes(e, handler)
    ensures handler in Step(d, e).handlers <==> handler in d.handlers
    ensures handler in d.handlers ==> Step(d, e).handlers[handler] == d.handlers[handler]
  {
    hide FindIntent, FindRef, LiveCount, CapturedRows, VoidedRows, AdvancePaid, Decided;
  }

  lemma {:induction false} StaysMade(es: seq<Event>, k: nat, handler: Id)
    requires k < |es| && forall i :: k < i < |es| ==> !Makes(es[i], handler)
    ensures handler in Run(es).handlers <==> handler in Run(es[..k + 1]).handlers
    ensures handler in Run(es).handlers ==> Run(es).handlers[handler] == Run(es[..k + 1]).handlers[handler]
    decreases |es|
  {
    if k == |es| - 1 {
      assert es[..k + 1] == es;
    } else {
      hide Step;
      var front := es[..|es| - 1];
      assert front[..k + 1] == es[..k + 1];
      assert forall i :: 0 <= i < |front| ==> front[i] == es[i];
      StaysMade(front, k, handler);
      OthersStay(Run(front), es[|es| - 1], handler);
    }
  }

  /** A poll that makes a handler of success has read the confirmation of a snapshot it took up. */
  lemma PollMakes(d: Desk, e: Event)
    requires DeskOk(d) && e.Poll? && e.handler !in d.handlers && e.handler in Step(d, e).handlers
    ensures var h := Step(d, e).handlers[e.handler];
      && e.snapshot in d.stuck && h.intent == e.snapshot.intent
      && (h.success ==> e.pollable && e.status.Some? && Confirms(e.snapshot, e.status.value))
  {
    hide FindRef, FindIntent, Normal, RepairKey, OrdersOk, DeliveriesOk, HandlersOk, CapturesOk;
    RepairIsMatched(d, e.snapshot, e.pollable, e.status);
  }

  lemma {:induction false} StuckStays(es: seq<Event>, k: nat, s: Snapshot)
    requires k <= |es| && s in Run(es[..k]).stuck
    ensures s in Run(es).stuck
    decreases |es|
  {
    if k == |es| {
      assert es[..k] == es;
    } else {
      var front := es[..|es| - 1];
      assert front[..k] == es[..k];
      StuckStays(front, k, s);
      StuckOnlyGrows(Run(front), es[|es| - 1]);
    }
  }

  lemma StuckOnlyGrows(d: Desk, e: Event)
    ensures d.stuck <= Step(d, e).stuck
  {
    hide FindIntent, FindRef, LiveCount, CapturedRows, VoidedRows, AdvancePaid, Decided;
  }

  /** A step that captures is the effect of a handler of success, and captures that handler's intent. */
  lemma EffectCaptures(d: Desk, handler: Id)
    requires |Step(d, Effect(handler)).captures| > |d.captures|
    ensures handler in d.handlers && d.handlers[handler].success
    ensures var after := Step(d, Effect(handler));
      && |after.captures| == |d.captures| + 1
      && after.captures[|d.captures|].intent == d.handlers[handler].intent
      && Known(after, d.handlers[handler].intent) && The(after, d.handlers[handler].intent).status == Succeeded
  {
    hide FindIntent, CapturedRows, AdvancePaid;
    if handler in d.handlers && FindIntent(d.intents, d.handlers[handler].intent).Some? {
      FindAfterUpdate(d.intents, FindIntent(d.intents, d.handlers[handler].intent).value, Succeeded, d.handlers[handler].intent);
    }
  }

  /**
   * Whatever comes between a reconciler's poll and the effect of the handler that poll made: if the
   * effect captures, the answer polled was a success of exactly the intent's amount and currency.
   */
  lemma {:induction false} ReconciledCapturesMatch(es: seq<Event>, k: nat, j: nat)
    requires k < j < |es| && es[k].Poll? && es[j] == Effect(es[k].handler)
    requires forall i :: 0 <= i < j && i != k ==> !Makes(es[i], es[k].handler)
    requires |Run(es[..j + 1]).captures| > |Run(es[..j]).captures|
    ensures var d, intent := Run(es[..j + 1]), es[k].snapshot.intent;
      && d.captures[|d.captures| - 1].intent == intent
      && Known(d, intent) && The(d, intent).status == Succeeded
      && es[k].pollable && es[k].status.Some? && es[k].status.value.StatusSucceeded?
      && es[k].status.value.amount == Some(The(d, intent).amount)
      && Normal(es[k].status.value.currency) == Normal(The(d, intent).currency)
  {
    hide Run, Step, DeskOk, Known, Normal;
    var handler := es[k].handler;
    var early, late := es[..k], es[..j];
    LastStep(es, k);
    LastStep(es, j);
    assert es[..j + 1][..k + 1] == es[..k + 1] && es[..j + 1][..k] == early;
    assert late[..k + 1] == es[..k + 1];
    assert forall i :: 0 <= i < |early| ==> early[i] == es[i];
    assert forall i :: 0 <= i < |late| ==> late[i] == es[i];
    NotMadeYet(early, handler);
    StaysMade(late, k, handler);
    EffectCaptures(Run(late), handler);
    RunIsOk(early);
    PollMakes(Run(early), es[k]);
    StuckStays(es[..j + 1], k, es[k].snapshot);
    RunIsOk(es[..j + 1]);
    StuckIsIntent(Run(es[..j + 1]), es[k].snapshot);
  }

  lemma LastStep(es: seq<Event>, k: nat)
    requires k < |es|
    ensures Run(es[..k + 1]) == Step(Run(es[..k]), es[k])
  {
    hide Step;
    assert es[..k + 1][..k] == es[..k];
  }

  lemma StuckIsIntent(d: Desk, s: Snapshot)
    requires DeskOk(d) && s in d.stuck
    ensures Known(d, s.intent) && SnapshotOf(The(d, s.intent)) == s
  {
  }
}
