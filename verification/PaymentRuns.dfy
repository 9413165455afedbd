/** What every interleaving of checkouts, webhooks, reconcilers and janitors keeps. */
module PaymentRuns {
  import opened Common
  import opened Payments

  // ---------------------------------------------------------------- counting

  function PaidCount(outbox: seq<Published>, order: Id): nat {
    if outbox == [] then 0
    else
      var front := PaidCount(outbox[..|outbox| - 1], order);
      if outbox[|outbox| - 1] == OrderPaid(order) then front + 1 else front
  }

  function CaptureCount(captures: seq<Capture>, intent: Id): nat {
    if captures == [] then 0
    else
      var front := CaptureCount(captures[..|captures| - 1], intent);
      if captures[|captures| - 1].intent == intent then front + 1 else front
  }

  lemma {:induction false} CountsUpdate(intents: seq<Intent>, i: nat, status: IntentStatus, order: Id)
    requires i < |intents|
    ensures var after := intents[i := intents[i].(status := status)];
      && LiveCount(after, order) + (if intents[i].order == order && !Final(intents[i].status) then 1 else 0)
         == LiveCount(intents, order) + (if intents[i].order == order && !Final(status) then 1 else 0)
      && SucceededCount(after, order) + (if intents[i].order == order && intents[i].status == Succeeded then 1 else 0)
         == SucceededCount(intents, order) + (if intents[i].order == order && status == Succeeded then 1 else 0)
  {
    var front, after := intents[..|intents| - 1], intents[i := intents[i].(status := status)];
    if i < |front| {
      CountsUpdate(front, i, status, order);
      assert after[..|front|] == front[i := front[i].(status := status)];
    } else {
      assert after[..|front|] == front;
    }
  }

  lemma {:induction false} CountsPush(intents: seq<Intent>, it: Intent, order: Id)
    ensures LiveCount(intents + [it], order) ==
      LiveCount(intents, order) + (if it.order == order && !Final(it.status) then 1 else 0)
    ensures SucceededCount(intents + [it], order) ==
      SucceededCount(intents, order) + (if it.order == order && it.status == Succeeded then 1 else 0)
  {
    assert (intents + [it])[..|intents|] == intents;
  }

  lemma {:induction false} PaidPush(outbox: seq<Published>, e: Published, order: Id)
    ensures PaidCount(outbox + [e], order) == PaidCount(outbox, order) + (if e == OrderPaid(order) then 1 else 0)
  {
    assert (outbox + [e])[..|outbox|] == outbox;
  }

  lemma {:induction false} CapturePush(captures: seq<Capture>, c: Capture, intent: Id)
    ensures CaptureCount(captures + [c], intent) == CaptureCount(captures, intent) + (if c.intent == intent then 1 else 0)
  {
    assert (captures + [c])[..|captures|] == captures;
  }

  lemma {:induction false} FindAfterUpdate(intents: seq<Intent>, i: nat, status: IntentStatus, id: Id)
    requires i < |intents|
    ensures FindIntent(intents[i := intents[i].(status := status)], id) == FindIntent(intents, id)
  {
    var front, after := intents[..|intents| - 1], intents[i := intents[i].(status := status)];
    if i < |front| {
      FindAfterUpdate(front, i, status, id);
      assert after[..|front|] == front[i := front[i].(status := status)];
    } else {
      assert after[..|front|] == front;
    }
  }

  lemma {:induction false} FindAfterPush(intents: seq<Intent>, it: Intent, id: Id)
    ensures FindIntent(intents + [it], id) == if it.id == id then Some(|intents|) else FindIntent(intents, id)
  {
    assert (intents + [it])[..|intents|] == intents;
  }

  lemma {:induction false} LiveIsCounted(intents: seq<Intent>, i: nat)
    requires i < |intents| && !Final(intents[i].status)
    ensures LiveCount(intents, intents[i].order) >= 1
  {
    if i < |intents| - 1 {
      LiveIsCounted(intents[..|intents| - 1], i);
    }
  }

  // ---------------------------------------------------------------- invariants

  /** One live intent at most; one success at most, published once, after which the order is settled. */
  ghost predicate OrderOk(d: Desk, o: Id) {
    && LiveCount(d.intents, o) <= 1
    && PaidCount(d.outbox, o) == SucceededCount(d.intents, o) <= 1
    && (o !in d.orders ==> LiveCount(d.intents, o) == 0 && SucceededCount(d.intents, o) == 0)
    && (SucceededCount(d.intents, o) == 1 ==> LiveCount(d.intents, o) == 0 && d.orders[o].status != Pending)
  }

  ghost predicate OrdersOk(d: Desk) {
    (forall o :: OrderOk(d, o)) && (forall o :: o in d.orders ==> AdvanceOk(d.orders[o]))
  }

  predicate Known(d: Desk, intent: Id) {
    FindIntent(d.intents, intent).Some?
  }

  function The(d: Desk, intent: Id): Intent
    requires Known(d, intent)
  {
    d.intents[FindIntent(d.intents, intent).value]
  }

  /** Every recorded delivery belongs to an intent that is final. */
  ghost predicate DeliveriesOk(d: Desk) {
    forall k :: k in d.deliveries ==> Known(d, d.deliveries[k]) && Final(The(d, d.deliveries[k]).status)
  }

  /** The amount and currency a reconciler polled are the intent's. */
  predicate Matched(i: Intent, polled: Option<(int, string)>) {
    polled.Some? ==> polled.value.0 == i.amount && Normal(polled.value.1) == Normal(i.currency)
  }

  ghost predicate HandlersOk(d: Desk) {
    forall h :: h in d.handlers ==> Known(d, d.handlers[h].intent) && Matched(The(d, d.handlers[h].intent), d.handlers[h].polled)
  }

  /** A snapshot names an intent, and a gateway reference finds no other. */
  ghost predicate SnapshotsOk(d: Desk) {
    && (forall s :: s in d.stuck ==> Known(d, s.intent) && SnapshotOf(The(d, s.intent)) == s)
    && RefsDistinct(d.intents)
  }

  ghost predicate RefsDistinct(intents: seq<Intent>) {
    forall i, j :: 0 <= i < j < |intents| ==> Apart(intents[i], intents[j])
  }

  predicate Apart(a: Intent, b: Intent) {
    a.id != b.id && !(a.gateway == b.gateway && a.ref == b.ref)
  }

  ghost predicate CapturesOk(d: Desk) {
    && (forall k :: 0 <= k < |d.captures| ==>
          Known(d, d.captures[k].intent) && Matched(The(d, d.captures[k].intent), d.captures[k].polled))
    && (forall id :: CaptureCount(d.captures, id) ==
          if Known(d, id) && The(d, id).status == Succeeded then 1 else 0)
  }

  ghost predicate DeskOk(d: Desk) {
    OrdersOk(d) && DeliveriesOk(d) && HandlersOk(d) && SnapshotsOk(d) && CapturesOk(d)
  }

  // ---------------------------------------------------------------- each transaction keeps them

  lemma PlacedKeeps(d: Desk, id: Id, o: PayOrder, dueNow: int)
    requires DeskOk(d) && Placed(d, id, o, dueNow).Ok?
    ensures DeskOk(Placed(d, id, o, dueNow).value)
  {
    hide LiveCount, SucceededCount, PaidCount, CaptureCount, Matched, FindIntent;
    var after := Placed(d, id, o, dueNow).value;
    forall p ensures OrderOk(after, p) {
      assert OrderOk(d, p);
    }
  }

  lemma {:induction false} NoRef(intents: seq<Intent>, gateway: string, ref: string)
    requires FindRef(intents, gateway, ref).None?
    ensures forall i :: 0 <= i < |intents| ==> !(intents[i].gateway == gateway && intents[i].ref == ref)
  {
    if intents != [] {
      NoRef(intents[..|intents| - 1], gateway, ref);
      forall i | 0 <= i < |intents| ensures !(intents[i].gateway == gateway && intents[i].ref == ref) {
        assert i < |intents| - 1 ==> intents[i] == intents[..|intents| - 1][i];
      }
    }
  }

  lemma {:induction false} NoIntent(intents: seq<Intent>, id: Id)
    requires FindIntent(intents, id).None?
    ensures forall i :: 0 <= i < |intents| ==> intents[i].id != id
  {
    if intents != [] {
      NoIntent(intents[..|intents| - 1], id);
      forall i | 0 <= i < |intents| ensures intents[i].id != id {
        assert i < |intents| - 1 ==> intents[i] == intents[..|intents| - 1][i];
      }
    }
  }

  /** Adding an intent under a new id keeps everything known about the others. */
  lemma PushedIntent(d: Desk, after: Desk, it: Intent)
    requires DeskOk(d) && FindIntent(d.intents, it.id).None? && FindRef(d.intents, it.gateway, it.ref).None?
    requires it.status == Created && after == d.(intents := d.intents + [it])
    ensures DeliveriesOk(after) && HandlersOk(after) && SnapshotsOk(after) && CapturesOk(after)
  {
    hide CaptureCount, FindIntent, FindRef, Matched, OrdersOk, Final, SnapshotOf;
    forall id ensures FindIntent(after.intents, id) == if it.id == id then Some(|d.intents|) else FindIntent(d.intents, id) {
      FindAfterPush(d.intents, it, id);
    }
    NoRef(d.intents, it.gateway, it.ref);
    NoIntent(d.intents, it.id);
    assert CaptureCount(d.captures, it.id) == 0;
  }

  lemma OpenedKeeps(d: Desk, id: Id, order: Id, gateway: string, ref: string, charge: Option<int>)
    requires DeskOk(d) && Opened(d, id, order, gateway, ref, charge).Ok?
    ensures DeskOk(Opened(d, id, order, gateway, ref, charge).value)
  {
    hide LiveCount, SucceededCount, PaidCount, FindIntent, FindRef, DeliveriesOk, HandlersOk, SnapshotsOk, CapturesOk;
    var after := Opened(d, id, order, gateway, ref, charge).value;
    var it := after.intents[|d.intents|];
    PushedIntent(d, after, it);
    forall p ensures OrderOk(after, p) {
      assert OrderOk(d, p);
      CountsPush(d.intents, it, p);
    }
  }

  lemma {:induction false} LookedUpKeeps(d: Desk, handler: Id, gateway: string, ref: string, external: string, success: bool,
                                         polled: Option<(int, string)>)
    requires DeskOk(d) && LookedUp(d, handler, gateway, ref, external, success, polled).Ok?
    requires Matched(d.intents[FindRef(d.intents, gateway, ref).value], polled)
    ensures DeskOk(LookedUp(d, handler, gateway, ref, external, success, polled).value)
  {
    hide LiveCount, SucceededCount, PaidCount, CaptureCount, Matched, FindRef;
    var after := LookedUp(d, handler, gateway, ref, external, success, polled).value;
    var i := FindRef(d.intents, gateway, ref).value;
    FindsItself(d.intents, i);
    hide FindIntent;
    forall p ensures OrderOk(after, p) {
      assert OrderOk(d, p);
    }
    forall h | h in after.handlers
      ensures Known(after, after.handlers[h].intent)
        && Matched(The(after, after.handlers[h].intent), after.handlers[h].polled)
    {
    }
  }

  lemma {:induction false} FindsItself(intents: seq<Intent>, i: nat)
    requires RefsDistinct(intents) && i < |intents|
    ensures FindIntent(intents, intents[i].id) == Some(i)
  {
    var front := intents[..|intents| - 1];
    if i < |front| {
      assert forall a :: 0 <= a < |front| ==> front[a] == intents[a];
      assert RefsDistinct(front);
      FindsItself(front, i);
      assert Apart(intents[i], intents[|front|]);
    }
  }

  lemma {:induction false} FindsItsRef(intents: seq<Intent>, i: nat)
    requires RefsDistinct(intents) && i < |intents|
    ensures FindRef(intents, intents[i].gateway, intents[i].ref) == Some(i)
  {
    var front := intents[..|intents| - 1];
    if i < |front| {
      assert forall a :: 0 <= a < |front| ==> front[a] == intents[a];
      assert RefsDistinct(front);
      FindsItsRef(front, i);
      assert Apart(intents[i], intents[|front|]);
    }
  }

  /** A reconciler that decides to capture has matched amount and currency with the intent it looks up. */
  lemma RepairIsMatched(d: Desk, s: Snapshot, pollable: bool, status: Option<GatewayStatus>)
    requires SnapshotsOk(d) && s in d.stuck && Decided(s, pollable, status).Repair?
    ensures FindRef(d.intents, s.gateway, s.ref) == FindIntent(d.intents, s.intent)
    ensures Known(d, s.intent) && Matched(The(d, s.intent), Decided(s, pollable, status).polled)
  {
    hide FindRef, FindIntent, Normal;
    FindsItsRef(d.intents, FindIntent(d.intents, s.intent).value);
  }

  lemma ScannedKeeps(d: Desk, stale: set<Id>)
    requires DeskOk(d)
    ensures DeskOk(Scanned(d, stale))
  {
    hide LiveCount, SucceededCount, PaidCount, CaptureCount, Matched, FindIntent;
    var after := Scanned(d, stale);
    forall p ensures OrderOk(after, p) {
      assert OrderOk(d, p);
    }
    forall s | s in after.stuck ensures Known(after, s.intent) && SnapshotOf(The(after, s.intent)) == s {
      if s !in d.stuck {
        var i :| 0 <= i < |d.intents| && SnapshotOf(d.intents[i]) == s;
        FindsItself(d.intents, i);
        assert after.intents == d.intents;
        assert SnapshotOf(d.intents[i]).intent == d.intents[i].id;
        assert s.intent == d.intents[i].id;
      }
    }
  }

  lemma CancelledKeeps(d: Desk, order: Id)
    requires DeskOk(d)
    ensures DeskOk(JanitorCancelled(d, order))
  {
    hide LiveCount, SucceededCount, PaidCount, CaptureCount, Matched, FindIntent, VoidedRows;
    var after := JanitorCancelled(d, order);
    forall p ensures OrderOk(after, p) {
      assert OrderOk(d, p);
      PaidPush(d.outbox, OrderExpired(order), p);
    }
  }

  /** The intent `id` once the intent at `i` has its new status. */
  function Finished(d: Desk, i: nat, status: IntentStatus, id: Id): Intent
    requires i < |d.intents| && Known(d, id)
  {
    if FindIntent(d.intents, id) == Some(i) then d.intents[i].(status := status) else The(d, id)
  }

  /** Making a live intent final: what is known of it and of every other intent. */
  lemma FinishedIntent(d: Desk, i: nat, status: IntentStatus, id: Id)
    requires i < |d.intents|
    ensures var after := d.(intents := d.intents[i := d.intents[i].(status := status)]);
      Known(after, id) == Known(d, id) && (Known(d, id) ==> The(after, id) == Finished(d, i, status, id))
  {
    FindAfterUpdate(d.intents, i, status, id);
  }

  ghost predicate Finishes(d: Desk, after: Desk, i: nat, status: IntentStatus) {
    i < |d.intents| && !Final(d.intents[i].status) && Final(status)
    && after.intents == d.intents[i := d.intents[i].(status := status)]
  }

  lemma {:induction false} FinishedDeliveries(d: Desk, after: Desk, i: nat, status: IntentStatus, key: (string, string), intent: Id)
    requires DeliveriesOk(d) && Finishes(d, after, i, status) && FindIntent(d.intents, intent) == Some(i)
    requires after.deliveries == d.deliveries[key := intent]
    ensures DeliveriesOk(after)
  {
    hide FindIntent;
    forall k | k in after.deliveries
      ensures Known(after, after.deliveries[k]) && Final(The(after, after.deliveries[k]).status)
    {
      FinishedIntent(d, i, status, after.deliveries[k]);
    }
  }

  lemma FinishedHandlers(d: Desk, after: Desk, i: nat, status: IntentStatus)
    requires HandlersOk(d) && Finishes(d, after, i, status) && after.handlers == d.handlers
    ensures HandlersOk(after)
  {
    hide FindIntent, Normal;
    forall h | h in after.handlers
      ensures Known(after, after.handlers[h].intent) && Matched(The(after, after.handlers[h].intent), after.handlers[h].polled)
    {
      FinishedIntent(d, i, status, after.handlers[h].intent);
    }
  }

  lemma FinishedSnapshots(d: Desk, after: Desk, i: nat, status: IntentStatus)
    requires SnapshotsOk(d) && Finishes(d, after, i, status) && after.stuck == d.stuck
    ensures SnapshotsOk(after)
  {
    hide FindIntent;
    forall s | s in after.stuck ensures Known(after, s.intent) && SnapshotOf(The(after, s.intent)) == s {
      FinishedIntent(d, i, status, s.intent);
    }
    forall a, b | 0 <= a < b < |after.intents| ensures Apart(after.intents[a], after.intents[b]) {
      assert Apart(d.intents[a], d.intents[b]);
    }
  }

  lemma FinishedCaptures(d: Desk, after: Desk, i: nat, status: IntentStatus, c: Capture)
    requires CapturesOk(d) && Finishes(d, after, i, status) && FindIntent(d.intents, c.intent) == Some(i)
    requires Matched(d.intents[i], c.polled)
    requires after.captures == if status == Succeeded then d.captures + [c] else d.captures
    ensures CapturesOk(after)
  {
    hide FindIntent, Normal, CaptureCount;
    forall k | 0 <= k < |after.captures|
      ensures Known(after, after.captures[k].intent) && Matched(The(after, after.captures[k].intent), after.captures[k].polled)
    {
      FinishedIntent(d, i, status, after.captures[k].intent);
    }
    forall id ensures CaptureCount(after.captures, id) ==
      if Known(after, id) && The(after, id).status == Succeeded then 1 else 0
    {
      CapturePush(d.captures, c, id);
      FinishedIntent(d, i, status, id);
      assert CaptureCount(d.captures, id) == if Known(d, id) && The(d, id).status == Succeeded then 1 else 0;
    }
  }

  lemma FailedKeeps(d: Desk, h: Handler, i: nat)
    requires DeskOk(d) && FindIntent(d.intents, h.intent) == Some(i) && !Final(d.intents[i].status)
    ensures DeskOk(d.(deliveries := d.deliveries[(h.gateway, h.external) := h.intent],
                      intents := d.intents[i := d.intents[i].(status := Failed)]))
  {
    hide LiveCount, SucceededCount, PaidCount, CaptureCount, Normal, FindIntent;
    var after := d.(deliveries := d.deliveries[(h.gateway, h.external) := h.intent],
                    intents := d.intents[i := d.intents[i].(status := Failed)]);
    forall p ensures OrderOk(after, p) {
      assert OrderOk(d, p);
      CountsUpdate(d.intents, i, Failed, p);
    }
    FinishedDeliveries(d, after, i, Failed, (h.gateway, h.external), h.intent);
    FinishedHandlers(d, after, i, Failed);
    FinishedSnapshots(d, after, i, Failed);
    FinishedCaptures(d, after, i, Failed, Capture(h.intent, d.intents[i].order, None));
  }

  lemma CaptureKeeps(d: Desk, h: Handler, i: nat)
    requires DeskOk(d) && FindIntent(d.intents, h.intent) == Some(i) && !Final(d.intents[i].status)
    requires Matched(d.intents[i], h.polled) && CaptureEffect(d, i, h).Ok?
    ensures DeskOk(CaptureEffect(d, i, h).value)
  {
    hide LiveCount, SucceededCount, PaidCount, CaptureCount, Matched, FindIntent, CapturedRows, AdvancePaid;
    var after, order := CaptureEffect(d, i, h).value, d.intents[i].order;
    LiveIsCounted(d.intents, i);
    forall p ensures OrderOk(after, p) {
      assert OrderOk(d, p);
      CountsUpdate(d.intents, i, Succeeded, p);
      PaidPush(d.outbox, OrderPaid(order), p);
    }
    FinishedDeliveries(d, after, i, Succeeded, (h.gateway, h.external), h.intent);
    FinishedHandlers(d, after, i, Succeeded);
    FinishedSnapshots(d, after, i, Succeeded);
    FinishedCaptures(d, after, i, Succeeded, Capture(h.intent, order, h.polled));
  }

  /** Whatever a handler finds when it gets the lock, its effect keeps the invariants. */
  lemma AppliedKeeps(d: Desk, h: Handler)
    requires DeskOk(d) && Known(d, h.intent) && Matched(The(d, h.intent), h.polled) && Applied(d, h).Ok?
    ensures DeskOk(Applied(d, h).value.0)
  {
    hide LiveCount, SucceededCount, PaidCount, CaptureCount, Matched, FindIntent, CaptureEffect;
    var i := FindIntent(d.intents, h.intent).value;
    if (h.gateway, h.external) !in d.deliveries {
      if Final(d.intents[i].status) {
        var after := Applied(d, h).value.0;
        forall p ensures OrderOk(after, p) {
          assert OrderOk(d, p);
        }
      } else if !h.success {
        FailedKeeps(d, h, i);
      } else {
        CaptureKeeps(d, h, i);
      }
    }
  }

  lemma StepKeeps(d: Desk, e: Event)
    requires DeskOk(d)
    ensures DeskOk(Step(d, e))
  {
    hide DeskOk, Placed, Opened, Applied, Scanned, JanitorCancelled, FindRef, FindIntent, Normal;
    match e {
      case Place(order, row, dueNow) =>
        if Placed(d, order, row, dueNow).Ok? { PlacedKeeps(d, order, row, dueNow); }
      case Open(intent, order, gateway, ref, charge) =>
        if Opened(d, intent, order, gateway, ref, charge).Ok? { OpenedKeeps(d, intent, order, gateway, ref, charge); }
      case Lookup(handler, gateway, ref, external, success) =>
        if LookedUp(d, handler, gateway, ref, external, success, None).Ok? {
          LookedUpKeeps(d, handler, gateway, ref, external, success, None);
        }
      case Effect(handler) =>
        if handler in d.handlers && Applied(d, d.handlers[handler]).Ok? {
          HandlerIsKnown(d, handler);
          AppliedKeeps(d, d.handlers[handler]);
        }
      case Scan(stale) => ScannedKeeps(d, stale);
      case Poll(handler, s, pollable, status) =>
        if s in d.stuck && Decided(s, pollable, status).Repair? {
          var r := Decided(s, pollable, status);
          StuckIsKnown(d);
          RepairIsMatched(d, s, pollable, status);
          LookedUpKeeps(d, handler, s.gateway, s.ref, RepairKey(s, r.success), r.success, r.polled);
        }
      case Cancel(order) => CancelledKeeps(d, order);
    }
  }

  lemma HandlerIsKnown(d: Desk, handler: Id)
    requires DeskOk(d) && handler in d.handlers
    ensures var h := d.handlers[handler]; Known(d, h.intent) && Matched(The(d, h.intent), h.polled)
  {
  }

  lemma StuckIsKnown(d: Desk)
    requires DeskOk(d)
    ensures SnapshotsOk(d)
  {
  }

  lemma EmptyIsOk()
    ensures DeskOk(EMPTY)
  {
  }

  /** Every interleaving reaches only sound states. */
  lemma {:induction false} RunIsOk(es: seq<Event>)
    ensures DeskOk(Run(es))
  {
    hide DeskOk, Step;
    if es == [] {
      EmptyIsOk();
    } else {
      RunIsOk(es[..|es| - 1]);
      StepKeeps(Run(es[..|es| - 1]), es[|es| - 1]);
    }
  }

  // ---------------------------------------------------------------- what that means

  /** `order.paid` is published exactly as often as an intent of the order succeeded: once at most. */
  lemma {:induction false} PaidOnce(es: seq<Event>, order: Id)
    ensures PaidCount(Run(es).outbox, order) == SucceededCount(Run(es).intents, order) <= 1
  {
    hide Step;
    RunIsOk(es);
    assert OrderOk(Run(es), order);
  }

  /** A recorded delivery's intent is final: a retry of it can be answered without doing anything. */
  lemma {:induction false} DeliveriesAreFinal(es: seq<Event>, k: (string, string))
    requires k in Run(es).deliveries
    ensures Known(Run(es), Run(es).deliveries[k]) && Final(The(Run(es), Run(es).deliveries[k]).status)
  {
    hide Step;
    RunIsOk(es);
  }

  /** What a capture was polled with, if it was, is the amount and currency of its intent. */
  lemma {:induction false} PolledCapturesMatch(es: seq<Event>, k: nat)
    requires k < |Run(es).captures| && Run(es).captures[k].polled.Some?
    ensures var c := Run(es).captures[k];
      && Known(Run(es), c.intent) && The(Run(es), c.intent).status == Succeeded
      && c.polled.value.0 == The(Run(es), c.intent).amount
      && Normal(c.polled.value.1) == Normal(The(Run(es), c.intent).currency)
  {
    hide Step, Normal;
    RunIsOk(es);
    CaptureCounts(Run(es).captures, k);
  }

  lemma {:induction false} CaptureCounts(captures: seq<Capture>, k: nat)
    requires k < |captures|
    ensures CaptureCount(captures, captures[k].intent) >= 1
  {
    if k < |captures| - 1 {
      CaptureCounts(captures[..|captures| - 1], k);
    }
  }

  /** No cash-on-delivery order is confirmed before its advance is collected. */
  lemma {:induction false} ConfirmedAdvanceIsPaid(es: seq<Event>, order: Id)
    requires order in Run(es).orders && Run(es).orders[order].cod && Run(es).orders[order].status == Confirmed
    ensures Run(es).orders[order].advancePaid >= Run(es).orders[order].advanceRequired
  {
    hide Step;
    RunIsOk(es);
  }

  lemma FinalStays(d: Desk, e: Event, id: Id)
    requires DeskOk(d) && Known(d, id)
    ensures Known(Step(d, e), id)
    ensures Final(The(d, id).status) ==> The(Step(d, e), id) == The(d, id)
  {
    hide FindIntent, FindRef, LiveCount, SucceededCount, PaidCount, CaptureCount, Matched, CapturedRows, VoidedRows,
         AdvancePaid, Normal, DeskOk;
    match e {
      case Open(intent, order, gateway, ref, charge) =>
        if Opened(d, intent, order, gateway, ref, charge).Ok? {
          FindAfterPush(d.intents, Step(d, e).intents[|d.intents|], id);
        }
      case Effect(handler) =>
        if handler in d.handlers {
          var i := FindIntent(d.intents, d.handlers[handler].intent);
          if i.Some? {
            FindAfterUpdate(d.intents, i.value, Failed, id);
            FindAfterUpdate(d.intents, i.value, Succeeded, id);
          }
        }
      case _ =>
    }
  }

  /** A final intent status never changes, over every interleaving. */
  lemma {:induction false} FinalForever(es: seq<Event>, n: nat, id: Id)
    requires n <= |es| && Known(Run(es[..n]), id) && Final(The(Run(es[..n]), id).status)
    ensures Known(Run(es), id) && The(Run(es), id) == The(Run(es[..n]), id)
    decreases |es|
  {
    hide Step, DeskOk;
    if n == |es| {
      assert es[..n] == es;
    } else {
      var front := es[..|es| - 1];
      assert front[..n] == es[..n];
      FinalForever(front, n, id);
      RunIsOk(front);
      FinalStays(Run(front), es[|es| - 1], id);
    }
  }

  /** A replayed delivery is a duplicate and changes nothing. */
  lemma ReplayChangesNothing(d: Desk, h: Handler)
    requires Known(d, h.intent) && Applied(d, h).Ok? && Applied(d, h).value.1 != NotFound
    ensures Applied(Applied(d, h).value.0, h) == Ok((Applied(d, h).value.0, Duplicate))
  {
    hide FindIntent, CapturedRows, AdvancePaid;
    var i := FindIntent(d.intents, h.intent).value;
    FindAfterUpdate(d.intents, i, Failed, h.intent);
    FindAfterUpdate(d.intents, i, Succeeded, h.intent);
  }

  /**
   * A success for a live intent captures, unless the cash-on-delivery advance would still be unpaid;
   * then the whole transaction rolls back, delivery row included, so the gateway's retry is not lost.
   */
  lemma CaptureHappensIff(d: Desk, h: Handler)
    requires DeskOk(d) && Known(d, h.intent) && !Final(The(d, h.intent).status)
    requires h.success && (h.gateway, h.external) !in d.deliveries
    ensures var o := The(d, h.intent).order;
      && o in d.orders
      && (Applied(d, h).Ok? <==> (d.orders[o].cod && d.orders[o].status != Cancelled ==>
            AdvancePaid(CapturedRows(d.rows, o), o) >= d.orders[o].advanceRequired))
      && (Applied(d, h).Ok? ==> Applied(d, h).value.1 == CapturedNow)
      && (Applied(d, h).Err? ==> Applied(d, h).error == AdvanceUnpaid)
  {
    hide LiveCount, SucceededCount, PaidCount, FindIntent, CapturedRows, AdvancePaid;
    LiveIsCounted(d.intents, FindIntent(d.intents, h.intent).value);
    assert OrderOk(d, The(d, h.intent).order);
    assert LiveCount(d.intents, The(d, h.intent).order) >= 1;
  }

  /** A capture confirms the order exactly when the janitor had not cancelled it first. */
  lemma CaptureConfirmsIff(d: Desk, h: Handler)
    requires Known(d, h.intent) && Applied(d, h).Ok? && Applied(d, h).value.1 == CapturedNow
    ensures var o := The(d, h.intent).order;
      var after := Applied(d, h).value.0;
      && o in d.orders && o in after.orders
      && after.outbox == d.outbox + [OrderPaid(o)]
      && (after.orders[o].status == Confirmed <==> d.orders[o].status != Cancelled)
      && after.orders[o].status != Pending
      && (after.orders[o].cod ==> after.orders[o].advancePaid == AdvancePaid(after.rows, o))
  {
    hide FindIntent, CapturedRows, AdvancePaid;
  }

  const LATE_ORDER: PayOrder := PayOrder(Pending, 500, "AED", false, 0, 0)

  /** The janitor gets in between a webhook's lookup and its effect. */
  const LATE_CAPTURE: seq<Event> := [
    Place("o", LATE_ORDER, 500), Open("i", "o", "g", "r", None), Lookup("h", "g", "r", "x", true), Cancel("o"), Effect("h")]

  /** So `order.paid` does not imply a confirmed order. */
  lemma LateCaptureHappens()
    ensures var d := Run(LATE_CAPTURE);
      PaidCount(d.outbox, "o") == 1 && "o" in d.orders && d.orders["o"].status == Cancelled
  {
    var e := LATE_CAPTURE;
    assert e == [] + [e[0]] + [e[1]] + [e[2]] + [e[3]] + [e[4]];
    RunPush([], e[0]);
    RunPush([] + [e[0]], e[1]);
    RunPush([] + [e[0]] + [e[1]], e[2]);
    RunPush([] + [e[0]] + [e[1]] + [e[2]], e[3]);
    RunPush([] + [e[0]] + [e[1]] + [e[2]] + [e[3]], e[4]);
    LateLookup();
    LateCancel();
    PaidOnce(e, "o");
    PaidPush([OrderExpired("o")], OrderPaid("o"), "o");
  }

  lemma {:induction false} RunPush(es: seq<Event>, e: Event)
    ensures Run(es + [e]) == Step(Run(es), e)
  {
    assert (es + [e])[..|es|] == es;
  }

  const LATE_INTENT: Intent := Intent("i", "o", "g", "r", 500, "AED", Created)

  const LATE_HANDLER: Handler := Handler("i", "g", "x", true, None)

  /** After the lookup and before the janitor. */
  const LATE_DESK: Desk := Desk(map["o" := LATE_ORDER], [LATE_INTENT], [PayRow("o", true, 500, Sale, Due)], map[], [],
                                map["h" := LATE_HANDLER], {}, [])

  lemma LateLookup()
    ensures var e := LATE_CAPTURE;
      Step(Step(Step(EMPTY, e[0]), e[1]), e[2]) == LATE_DESK
  {
    var e := LATE_CAPTURE;
    var d1 := Step(EMPTY, e[0]);
    assert d1 == LATE_DESK.(intents := [], handlers := map[]);
    var d2 := Step(d1, e[1]);
    assert d2 == LATE_DESK.(handlers := map[]);
    assert FindRef(d2.intents, "g", "r") == Some(0);
  }

  lemma LateCancel()
    ensures var e := LATE_CAPTURE;
      var d := Step(Step(LATE_DESK, e[3]), e[4]);
      && "o" in d.orders && d.orders["o"].status == Cancelled
      && d.outbox == [OrderExpired("o")] + [OrderPaid("o")]
  {
    hide CapturedRows, VoidedRows, AdvancePaid;
    var d4 := Step(LATE_DESK, LATE_CAPTURE[3]);
    assert d4.intents == [LATE_INTENT] && d4.orders["o"].status == Cancelled;
    assert FindIntent(d4.intents, "i") == Some(0);
    assert d4.outbox == [OrderExpired("o")];
    assert Step(d4, LATE_CAPTURE[4]).outbox == d4.outbox + [OrderPaid("o")];
  }
}
