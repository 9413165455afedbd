/** The payment service and the reconciler, updating the tables in place, against the functions that specify them. */
module PaymentDesk {
  import opened Common
  import opened Payments
  import opened PaymentRuns

  // ---------------------------------------------------------------- one webhook, start to end

  /** `applyWebhook` when nothing comes between its lookup and its effect. */
  function Webhook(d: Desk, gateway: string, ref: string, external: string, success: bool, polled: Option<(int, string)>):
    Result<(Desk, Outcome), PaymentError>
  {
    match FindRef(d.intents, gateway, ref)
    case None => Ok((d, NotFound))
    case Some(i) => Applied(d, Handler(d.intents[i].id, gateway, external, success, polled))
  }

  // ---------------------------------------------------------------- exceptions the reconciler files

  /** One row per intent and reason: how often it was seen, and whether it is open. */
  datatype ExceptionRow = ExceptionRow(seen: nat, isOpen: bool)

  type Filed = map<(Id, Exception), ExceptionRow>

  /** Seeing a problem again counts it and reopens it. */
  function FlagIn(filed: Filed, intent: Id, why: Exception): Filed {
    var k := (intent, why);
    filed[k := ExceptionRow(if k in filed then filed[k].seen + 1 else 1, true)]
  }

  function ResolveIn(filed: Filed, intent: Id): Filed {
    map k | k in filed :: if k.0 == intent then filed[k].(isOpen := false) else filed[k]
  }

  datatype Action = DidCapture | DidFail | WasFinal | WasDuplicate | WasFlagged | LeftAlone

  datatype Reconciled = Reconciled(desk: Desk, filed: Filed, action: Action, recorded: bool)

  function ActionOf(o: Outcome): Action {
    match o
    case CapturedNow => DidCapture
    case FailedNow => DidFail
    case AlreadyFinal => WasFinal
    case Duplicate => WasDuplicate
    case NotFound => LeftAlone
  }

  /** `reconcileOne`: decide, apply through the webhook path, and file or resolve. */
  function ReconcileOne(d: Desk, filed: Filed, s: Snapshot, pollable: bool, status: Option<GatewayStatus>): Reconciled {
    match Decided(s, pollable, status)
    case LeaveAlone => Reconciled(d, filed, LeftAlone, false)
    case Flag(why) => Reconciled(d, FlagIn(filed, s.intent, why), WasFlagged, false)
    case Repair(success, polled) =>
      match Webhook(d, s.gateway, s.ref, RepairKey(s, success), success, polled)
      case Err(_) => Reconciled(d, FlagIn(filed, s.intent, ApplyFailed), WasFlagged, false)
      case Ok((after, outcome)) =>
        var action := ActionOf(outcome);
        if !success then Reconciled(after, FlagIn(filed, s.intent, GatewayFailed), action, true)
        else Reconciled(after, if action == DidCapture then ResolveIn(filed, s.intent) else filed, action, false)
  }

  /** What was done about one intent, and whether a gateway failure was put on file with it. */
  datatype Done = Done(action: Action, recorded: bool)

  datatype Summary = Summary(examined: nat, repaired: nat, flagged: nat, outcomes: seq<Done>)

  datatype Poll = Poll(pollable: bool, status: Option<GatewayStatus>)

  function Tallied(s: Summary, r: Reconciled): Summary {
    Summary(s.examined, s.repaired + (if r.action == DidCapture || r.action == DidFail then 1 else 0),
            s.flagged + (if r.action == WasFlagged || r.recorded then 1 else 0), s.outcomes + [Done(r.action, r.recorded)])
  }

  /** `runOnce` over the first `n` stuck intents. */
  function ReconcileAll(d: Desk, filed: Filed, stuck: seq<Snapshot>, polls: Id -> Poll, n: nat): (Desk, Filed, Summary)
    requires n <= |stuck|
  {
    if n == 0 then (d, filed, Summary(|stuck|, 0, 0, []))
    else
      var (before, f, s) := ReconcileAll(d, filed, stuck, polls, n - 1);
      var poll := polls(stuck[n - 1].intent);
      var r := ReconcileOne(before, f, stuck[n - 1], poll.pollable, poll.status);
      (r.desk, r.filed, Tallied(s, r))
  }

  predicate WasRepaired(o: Done) {
    o.action == DidCapture || o.action == DidFail
  }

  predicate OnFile(o: Done) {
    o.action == WasFlagged || o.recorded
  }

  /** How many of the outcomes are of a kind. */
  function Count(outcomes: seq<Done>, kind: Done -> bool): nat {
    if outcomes == [] then 0
    else Count(outcomes[..|outcomes| - 1], kind) + (if kind(outcomes[|outcomes| - 1]) then 1 else 0)
  }

  lemma {:induction false} CountPush(outcomes: seq<Done>, o: Done, kind: Done -> bool)
    ensures Count(outcomes + [o], kind) == Count(outcomes, kind) + (if kind(o) then 1 else 0)
  {
    assert (outcomes + [o])[..|outcomes|] == outcomes;
  }

  /** After `n` of the stuck intents the counters are what the outcomes say. */
  ghost predicate SummaryOk(s: Summary, stuck: nat, n: nat) {
    && |s.outcomes| == n && s.examined == stuck
    && s.repaired == Count(s.outcomes, WasRepaired)
    && s.flagged == Count(s.outcomes, OnFile)
  }

  lemma TallyKeeps(s: Summary, r: Reconciled, stuck: nat, n: nat)
    requires SummaryOk(s, stuck, n)
    ensures SummaryOk(Tallied(s, r), stuck, n + 1)
  {
    hide Count;
    CountPush(s.outcomes, Done(r.action, r.recorded), WasRepaired);
    CountPush(s.outcomes, Done(r.action, r.recorded), OnFile);
  }

  /** The summary's counters are what its outcomes say; every stuck intent has one outcome. */
  lemma {:induction false} SummaryAddsUp(d: Desk, filed: Filed, stuck: seq<Snapshot>, polls: Id -> Poll, n: nat)
    requires n <= |stuck|
    ensures SummaryOk(ReconcileAll(d, filed, stuck, polls, n).2, |stuck|, n)
  {
    hide ReconcileOne, Tallied;
    if n > 0 {
      hide SummaryOk;
      SummaryAddsUp(d, filed, stuck, polls, n - 1);
      var (before, f, s) := ReconcileAll(d, filed, stuck, polls, n - 1);
      var poll := polls(stuck[n - 1].intent);
      TallyKeeps(s, ReconcileOne(before, f, stuck[n - 1], poll.pollable, poll.status), |stuck|, n - 1);
    }
  }

  /** An effect changes statuses only: gateway references and ids stay where they were. */
  lemma {:induction false} AppliedKeepsRefs(d: Desk, h: Handler, gateway: string, ref: string)
    requires Applied(d, h).Ok?
    ensures var after := Applied(d, h).value.0;
      && FindRef(after.intents, gateway, ref) == FindRef(d.intents, gateway, ref)
      && |after.intents| == |d.intents|
      && forall i :: 0 <= i < |d.intents| ==> after.intents[i].id == d.intents[i].id
  {
    hide FindRef, FindIntent, CapturedRows, AdvancePaid, AdvanceOk, WithAdvance, ConfirmedIfPending;
    var k := FindIntent(d.intents, h.intent);
    if k.Some? {
      SameRefs(d.intents, k.value, Failed, gateway, ref);
      SameRefs(d.intents, k.value, Succeeded, gateway, ref);
    }
  }

  /** The same webhook again is a duplicate. */
  lemma WebhookAgain(d: Desk, gateway: string, ref: string, external: string, success: bool, polled: Option<(int, string)>)
    requires Webhook(d, gateway, ref, external, success, polled).Ok?
    requires Webhook(d, gateway, ref, external, success, polled).value.1 != NotFound
    ensures var after := Webhook(d, gateway, ref, external, success, polled).value.0;
      Webhook(after, gateway, ref, external, success, polled) == Ok((after, Duplicate))
  {
    hide FindRef, FindIntent, CaptureEffect;
    var i := FindRef(d.intents, gateway, ref).value;
    var h := Handler(d.intents[i].id, gateway, external, success, polled);
    AppliedKeepsRefs(d, h, gateway, ref);
    ReplayChangesNothing(d, h);
  }

  /** Running the reconciler again on the same answer changes no payment state: the derived key is taken. */
  lemma RepairIsIdempotent(d: Desk, filed: Filed, s: Snapshot, pollable: bool, status: Option<GatewayStatus>)
    requires ReconcileOne(d, filed, s, pollable, status).action in {DidCapture, DidFail, WasFinal}
    ensures var again := ReconcileOne(d, filed, s, pollable, status).desk;
      ReconcileOne(again, filed, s, pollable, status).desk == again
      && ReconcileOne(again, filed, s, pollable, status).action == WasDuplicate
  {
    hide Webhook, Decided, RepairKey, FlagIn, ResolveIn;
    var decision := Decided(s, pollable, status);
    WebhookAgain(d, s.gateway, s.ref, RepairKey(s, decision.success), decision.success, decision.polled);
  }

  lemma {:induction false} SameRefs(intents: seq<Intent>, i: nat, status: IntentStatus, gateway: string, ref: string)
    requires i < |intents|
    ensures FindRef(intents[i := intents[i].(status := status)], gateway, ref) == FindRef(intents, gateway, ref)
  {
    var front, after := intents[..|intents| - 1], intents[i := intents[i].(status := status)];
    if i < |front| {
      SameRefs(front, i, status, gateway, ref);
      assert after[..|front|] == front[i := front[i].(status := status)];
    } else {
      assert after[..|front|] == front;
    }
  }

  // ---------------------------------------------------------------- the tables, in place

  class PaymentTables {
    var orders: map<Id, PayOrder>
    var intents: seq<Intent>
    var rows: seq<PayRow>
    var deliveries: map<(string, string), Id>
    var outbox: seq<Published>
    var handlers: map<Id, Handler>
    var stuck: set<Snapshot>
    ghost var captures: seq<Capture>
    var filed: Filed

    ghost function View(): Desk
      reads this
    {
      Desk(orders, intents, rows, deliveries, outbox, handlers, stuck, captures)
    }

    constructor ()
      ensures View() == EMPTY && filed == map[]
    {
      orders, intents, rows, deliveries, outbox := map[], [], [], map[], [];
      handlers, stuck, captures, filed := map[], {}, [], map[];
    }

    /** Open an intent under the order's row lock. */
    method CreateIntent(id: Id, order: Id, gateway: string, ref: string, charge: Option<int>) returns (failure: Option<PaymentError>)
      modifies this`intents
      ensures var r := Opened(old(View()), id, order, gateway, ref, charge);
        if r.Ok? then failure.None? && View() == r.value else failure == Some(r.error) && View() == old(View())
    {
      hide FindIntent, FindRef, LiveCount;
      if order !in orders {
        return Some(OrderNotFound);
      }
      var head := orders[order];
      if head.status != Pending {
        return Some(BadState);
      }
      var amount := if charge.Some? then charge.value else head.total;
      if amount <= 0 || amount > head.total {
        return Some(BadState);
      }
      if FindIntent(intents, id).Some? || FindRef(intents, gateway, ref).Some? || LiveCount(intents, order) > 0 {
        return Some(IntentExists);
      }
      intents := intents + [Intent(id, order, gateway, ref, amount, head.currency, Created)];
      failure := None;
    }

    method CaptureRows(order: Id)
      modifies this`rows
      ensures rows == CapturedRows(old(rows), order)
    {
      var before, i := rows, 0;
      var after: seq<PayRow> := [];
      while i < |before|
        invariant 0 <= i <= |before| && after == CapturedRows(before[..i], order)
      {
        var r := before[i];
        after := after + [if r.order == order && r.viaGateway && r.status == Due then r.(status := Captured) else r];
        assert before[..i + 1][..i] == before[..i];
        i := i + 1;
      }
      assert before[..i] == before;
      rows := after;
    }

    /** Sum of the captured advances of the order. */
    method SumAdvance(order: Id) returns (paid: int)
      ensures paid == AdvancePaid(rows, order)
    {
      paid := 0;
      var i := 0;
      while i < |rows|
        invariant 0 <= i <= |rows| && paid == AdvancePaid(rows[..i], order)
      {
        if rows[i].order == order && rows[i].purpose == CodAdvance && rows[i].status == Captured {
          paid := paid + rows[i].amount;
        }
        assert rows[..i + 1][..i] == rows[..i];
        i := i + 1;
      }
      assert rows[..i] == rows;
    }

    /** The success branch: intent, rows, advance, order and event, in that order; a failed check rolls all back. */
    method Capture(i: nat, h: Handler) returns (failure: Option<PaymentError>)
      requires i < |intents|
      modifies this`orders, this`intents, this`rows, this`deliveries, this`outbox, this`captures
      ensures var r := CaptureEffect(old(View()), i, h);
        if r.Ok? then failure.None? && View() == r.value else failure == Some(r.error) && View() == old(View())
    {
      hide CapturedRows, AdvancePaid, AdvanceOk;
      var order := intents[i].order;
      var intents0, rows0, orders0 := intents, rows, orders;
      if order !in orders {
        return Some(OrderNotFound);
      }
      intents := intents[i := intents[i].(status := Succeeded)];
      CaptureRows(order);
      if orders[order].cod {
        var paid := SumAdvance(order);
        orders := orders[order := orders[order].(advancePaid := paid)];
        if !AdvanceOk(orders[order]) {
          intents, rows, orders := intents0, rows0, orders0;
          return Some(AdvanceUnpaid);
        }
      }
      var before := orders[order];
      if before.status == Pending {
        orders := orders[order := before.(status := Confirmed)];
      }
      if !AdvanceOk(orders[order]) || !AdvanceOk(before) {
        intents, rows, orders := intents0, rows0, orders0;
        return Some(AdvanceUnpaid);
      }
      deliveries := deliveries[(h.gateway, h.external) := h.intent];
      outbox := outbox + [OrderPaid(order)];
      captures := captures + [Payments.Capture(h.intent, order, h.polled)];
      assert orders == orders0[order := orders[order]];
      failure := None;
    }

    /** The effect of a webhook under the intent's lock. */
    method ApplyEffect(h: Handler) returns (r: Result<Outcome, PaymentError>)
      modifies this`orders, this`intents, this`rows, this`deliveries, this`outbox, this`captures
      ensures match Applied(old(View()), h)
        case Ok((after, outcome)) => r == Ok(outcome) && View() == after
        case Err(e) => r == Err(e) && View() == old(View())
    {
      hide FindIntent, CaptureEffect;
      var found := FindIntent(intents, h.intent);
      if found.None? {
        return Ok(NotFound);
      }
      var i := found.value;
      var status := intents[i].status;
      if (h.gateway, h.external) in deliveries {
        return Ok(Duplicate);
      }
      if Final(status) {
        deliveries := deliveries[(h.gateway, h.external) := h.intent];
        return Ok(AlreadyFinal);
      }
      if !h.success {
        deliveries := deliveries[(h.gateway, h.external) := h.intent];
        intents := intents[i := intents[i].(status := Failed)];
        return Ok(FailedNow);
      }
      var failure := Capture(i, h);
      r := if failure.Some? then Err(failure.value) else Ok(CapturedNow);
    }

    /** A webhook: lookup in one transaction, effect in the next. */
    method ApplyWebhook(gateway: string, ref: string, external: string, success: bool, polled: Option<(int, string)>)
      returns (r: Result<Outcome, PaymentError>)
      modifies this`orders, this`intents, this`rows, this`deliveries, this`outbox, this`captures
      ensures match Webhook(old(View()), gateway, ref, external, success, polled)
        case Ok((after, outcome)) => r == Ok(outcome) && View() == after
        case Err(e) => r == Err(e) && View() == old(View())
    {
      hide Applied, FindRef;
      var found := FindRef(intents, gateway, ref);
      if found.None? {
        return Ok(NotFound);
      }
      r := ApplyEffect(Handler(intents[found.value].id, gateway, external, success, polled));
    }

    /** Decide what a polled status calls for and carry it out. */
    method Reconcile(s: Snapshot, pollable: bool, status: Option<GatewayStatus>) returns (action: Action, recorded: bool)
      modifies this
      ensures Reconciled(View(), filed, action, recorded) == ReconcileOne(old(View()), old(filed), s, pollable, status)
      ensures stuck == old(stuck)
    {
      hide Webhook, Decided, RepairKey;
      recorded := false;
      match Decided(s, pollable, status) {
        case LeaveAlone => action := LeftAlone;
        case Flag(why) =>
          filed := FlagIn(filed, s.intent, why);
          action := WasFlagged;
        case Repair(success, polled) =>
          var r := ApplyWebhook(s.gateway, s.ref, RepairKey(s, success), success, polled);
          if r.Err? {
            filed := FlagIn(filed, s.intent, ApplyFailed);
            action := WasFlagged;
          } else {
            action := ActionOf(r.value);
            if !success {
              filed := FlagIn(filed, s.intent, GatewayFailed);
              recorded := true;
            } else if action == DidCapture {
              filed := ResolveIn(filed, s.intent);
            }
          }
      }
    }

    /** `runOnce`: each stuck intent in turn, counting as it goes. */
    method RunReconciler(found: seq<Snapshot>, polls: Id -> Poll) returns (summary: Summary)
      modifies this
      ensures (View(), filed, summary) == ReconcileAll(old(View()), old(filed), found, polls, |found|)
    {
      hide ReconcileOne;
      ghost var d, f := View(), filed;
      var repaired: nat, flagged: nat, outcomes: seq<Done>, i := 0, 0, [], 0;
      while i < |found|
        invariant 0 <= i <= |found|
        invariant (View(), filed, Summary(|found|, repaired, flagged, outcomes)) == ReconcileAll(d, f, found, polls, i)
      {
        var poll := polls(found[i].intent);
        var action, recorded := Reconcile(found[i], poll.pollable, poll.status);
        outcomes := outcomes + [Done(action, recorded)];
        if action == DidCapture || action == DidFail {
          repaired := repaired + 1;
        }
        if action == WasFlagged || recorded {
          flagged := flagged + 1;
        }
        i := i + 1;
      }
      summary := Summary(|found|, repaired, flagged, outcomes);
    }
  }
}
