/** The notification service and the delivery job, updating rows in place, against the functions that specify them. */
module NotificationDesk {
  import opened Common
  import opened Notifications

  /** Claim the rows the due query returned, in order. */
  function ClaimAll(q: Queue, worker: Id, due: seq<Id>, now: int): Queue {
    if due == [] then q else ClaimRow(ClaimAll(q, worker, due[..|due| - 1], now), worker, due[|due| - 1], now)
  }

  function Mine(q: Queue, worker: Id): seq<Claimed> {
    if worker in q.workers then q.workers[worker] else []
  }

  lemma MarkShrinks(q: Queue, worker: Id, v: Verdict, now: int, delay: int)
    requires Mine(q, worker) != []
    ensures Mine(Marked(q, worker, v, now, delay), worker) == Mine(q, worker)[1..]
  {
  }

  /** Send and mark what the worker holds, first to last. */
  function MarkAll(q: Queue, worker: Id, verdicts: Id -> Verdict, now: int, backoff: int -> int): Queue
    decreases |Mine(q, worker)|
  {
    if Mine(q, worker) == [] then q
    else
      var c := Mine(q, worker)[0];
      MarkShrinks(q, worker, verdicts(c.id), now, backoff(c.attempts + 1));
      MarkAll(Marked(q, worker, verdicts(c.id), now, backoff(c.attempts + 1)), worker, verdicts, now, backoff)
  }

  /** One batch: sweep, claim, then send row by row. */
  function BatchDelivered(q: Queue, worker: Id, due: seq<Id>, verdicts: Id -> Verdict, now: int, stalledAfter: int, backoff: int -> int): Queue {
    var swept := q.(notes := SweptNotes(q.notes, now, stalledAfter));
    MarkAll(ClaimAll(swept, worker, due, now), worker, verdicts, now, backoff)
  }

  /** How many of the rows held get this verdict. */
  function VerdictCount(mine: seq<Claimed>, verdicts: Id -> Verdict, v: Verdict): nat {
    if mine == [] then 0 else (if verdicts(mine[0].id) == v then 1 else 0) + VerdictCount(mine[1..], verdicts, v)
  }

  function StalledCount(notes: seq<Note>, now: int, stalledAfter: int): nat {
    if notes == [] then 0
    else
      var n := notes[|notes| - 1];
      StalledCount(notes[..|notes| - 1], now, stalledAfter) + (if n.status == Sending && n.updatedAt < now - stalledAfter then 1 else 0)
  }

  /** What a worker holds once a batch is swept and claimed. */
  function HeldAfterClaim(q: Queue, worker: Id, due: seq<Id>, now: int, stalledAfter: int): seq<Claimed> {
    Mine(ClaimAll(q.(notes := SweptNotes(q.notes, now, stalledAfter)), worker, due, now), worker)
  }

  /** One row sent and marked: what is left to do, and to count. */
  lemma MarkAllStep(q: Queue, worker: Id, verdicts: Id -> Verdict, now: int, backoff: int -> int)
    requires Mine(q, worker) != []
    ensures var c := Mine(q, worker)[0];
      var next := Marked(q, worker, verdicts(c.id), now, backoff(c.attempts + 1));
      && Mine(next, worker) == Mine(q, worker)[1..]
      && MarkAll(q, worker, verdicts, now, backoff) == MarkAll(next, worker, verdicts, now, backoff)
      && forall v :: VerdictCount(Mine(q, worker), verdicts, v)
           == (if verdicts(c.id) == v then 1 else 0) + VerdictCount(Mine(next, worker), verdicts, v)
  {
    hide Marked;
    var c := Mine(q, worker)[0];
    MarkShrinks(q, worker, verdicts(c.id), now, backoff(c.attempts + 1));
  }

  lemma {:induction false} NothingLeft(q: Queue, worker: Id, verdicts: Id -> Verdict, now: int, backoff: int -> int)
    requires Mine(q, worker) == []
    ensures MarkAll(q, worker, verdicts, now, backoff) == q && forall v :: VerdictCount([], verdicts, v) == 0
  {
  }

  datatype DeliveryReport = DeliveryReport(claimed: nat, sent: nat, failed: nat, bounced: nat)

  class NotificationTables {
    var notes: seq<Note>
    var log: seq<Attempt>
    var delivered: seq<Id>
    var workers: map<Id, seq<Claimed>>

    function View(): Queue
      reads this
    {
      Queue(notes, log, delivered, workers)
    }

    constructor ()
      ensures View() == EMPTY
    {
      notes, log, delivered, workers := [], [], [], map[];
    }

    /** `enqueueWith`: insert unless the key is taken, and hand back the row that has it. */
    method Enqueue(id: Id, key: string, content: Content, max: Option<int>, now: int) returns (owner: Id, created: bool)
      modifies this`notes
      ensures (View(), owner, created) == Enqueued(old(View()), id, key, content, max, now)
    {
      hide FindKey;
      var found := FindKey(notes, key);
      if found.Some? {
        return notes[found.value].id, false;
      }
      notes := notes + [Note(id, key, content, Pending, 0, if max.Some? then max.value else DEFAULT_MAX, now, now)];
      return id, true;
    }

    method Resend(id: Id, newId: Id, recipient: Option<string>, now: int) returns (failure: Option<NoteError>)
      modifies this`notes
      ensures var r := Resent(old(View()), id, newId, recipient, now);
        if r.Ok? then failure.None? && View() == r.value else failure == Some(r.error) && View() == old(View())
    {
      hide Find, FindKey, ResendKey;
      var found := Find(notes, id);
      if found.None? {
        return Some(NotFound);
      }
      var n := notes[found.value];
      if n.status == Pending || n.status == Sending {
        return Some(NotResendable);
      }
      var key := ResendKey(n.dedupeKey, newId);
      if FindKey(notes, key).Some? || Find(notes, newId).Some? {
        return Some(KeyTaken);
      }
      var content := n.content;
      if recipient.Some? {
        content := content.(recipient := recipient.value);
      }
      notes := notes + [Note(newId, key, content, Pending, 0, n.maxAttempts, now, now)];
      failure := None;
    }

    method Cancel(id: Id, now: int) returns (failure: Option<NoteError>)
      modifies this`notes
      ensures var r := Cancelled(old(View()), id, now);
        if r.Ok? then failure.None? && View() == r.value else failure == Some(r.error) && View() == old(View())
    {
      hide Find;
      var found := Find(notes, id);
      if found.None? {
        return Some(NotFound);
      }
      var n := notes[found.value];
      if n.status != Pending && n.status != Failed {
        return Some(NotCancellable);
      }
      notes := notes[found.value := n.(status := CalledOff, updatedAt := now)];
      failure := None;
    }

    method ReclaimStalled(now: int, stalledAfter: int) returns (count: nat)
      modifies this`notes
      ensures notes == SweptNotes(old(notes), now, stalledAfter) && count == StalledCount(old(notes), now, stalledAfter)
    {
      var before, after, i := notes, [], 0;
      count := 0;
      while i < |before|
        invariant 0 <= i <= |before| && after == SweptNotes(before[..i], now, stalledAfter)
        invariant count == StalledCount(before[..i], now, stalledAfter)
      {
        var n := before[i];
        if n.status == Sending && n.updatedAt < now - stalledAfter {
          after := after + [n.(status := Failed, updatedAt := now)];
          count := count + 1;
        } else {
          after := after + [n];
        }
        assert before[..i + 1][..i] == before[..i] && before[..i + 1][i] == n;
        i := i + 1;
      }
      assert before[..i] == before;
      notes := after;
    }

    method ClaimBatch(worker: Id, due: seq<Id>, now: int)
      modifies this`notes, this`workers
      ensures View() == ClaimAll(old(View()), worker, due, now)
    {
      hide Find;
      ghost var q := View();
      var i := 0;
      while i < |due|
        invariant 0 <= i <= |due| && View() == ClaimAll(q, worker, due[..i], now)
      {
        assert due[..i + 1][..i] == due[..i];
        var found := Find(notes, due[i]);
        if found.Some? && Due(notes[found.value], now) {
          var n := notes[found.value];
          var mine := if worker in workers then workers[worker] else [];
          notes := notes[found.value := n.(status := Sending, updatedAt := now)];
          workers := workers[worker := mine + [Claimed(due[i], n.attempts)]];
        }
        i := i + 1;
      }
      assert due[..i] == due;
    }

    /** Log line, row and, for a confirmation, its event, in one transaction. */
    method MarkOutcome(c: Claimed, v: Verdict, now: int, delay: int)
      modifies this`notes, this`log, this`delivered
      ensures View() == MarkRow(old(View()), c, v, now, delay)
    {
      hide Find;
      var found := Find(notes, c.id);
      if found.None? {
        return;
      }
      var n := notes[found.value];
      log := log + [Attempt(c.id, c.attempts + 1, v)];
      match v {
        case Delivered =>
          notes := notes[found.value := n.(status := Sent, attempts := c.attempts + 1, updatedAt := now)];
          if n.content.template == CONFIRMATION && n.content.order.Some? {
            delivered := delivered + [c.id];
          }
        case Transient =>
          notes := notes[found.value :=
            n.(status := Failed, attempts := c.attempts + 1, updatedAt := now, nextAttemptAt := now + delay)];
        case Permanent =>
          notes := notes[found.value := n.(status := Bounced, attempts := c.attempts + 1, updatedAt := now)];
      }
    }

    /** Deliver one batch and report what happened to it: every claimed row is counted once. */
    method RunOnce(worker: Id, due: seq<Id>, verdicts: Id -> Verdict, now: int, stalledAfter: int, backoff: int -> int)
      returns (report: DeliveryReport)
      requires worker !in workers
      modifies this
      ensures View() == BatchDelivered(old(View()), worker, due, verdicts, now, stalledAfter, backoff)
      ensures var mine := HeldAfterClaim(old(View()), worker, due, now, stalledAfter);
        && report.claimed == |mine|
        && report.sent == VerdictCount(mine, verdicts, Delivered)
        && report.failed == VerdictCount(mine, verdicts, Transient)
        && report.bounced == VerdictCount(mine, verdicts, Permanent)
      ensures report.claimed == report.sent + report.failed + report.bounced
    {
      hide MarkRow, ClaimRow, SweptNotes, ClaimAll, MarkAll, VerdictCount;
      ghost var q := View();
      var _ := ReclaimStalled(now, stalledAfter);
      ClaimBatch(worker, due, now);
      ghost var claimedAll := View();
      ghost var mine := Mine(claimedAll, worker);
      var total := if worker in workers then |workers[worker]| else 0;
      var sent: nat, failed: nat, bounced: nat := 0, 0, 0;
      while worker in workers && workers[worker] != []
        invariant sent + failed + bounced + |Mine(View(), worker)| == total
        invariant sent + VerdictCount(Mine(View(), worker), verdicts, Delivered) == VerdictCount(mine, verdicts, Delivered)
        invariant failed + VerdictCount(Mine(View(), worker), verdicts, Transient) == VerdictCount(mine, verdicts, Transient)
        invariant bounced + VerdictCount(Mine(View(), worker), verdicts, Permanent) == VerdictCount(mine, verdicts, Permanent)
        invariant MarkAll(View(), worker, verdicts, now, backoff) == MarkAll(claimedAll, worker, verdicts, now, backoff)
        decreases |Mine(View(), worker)|
      {
        var c := workers[worker][0];
        var v := verdicts(c.id);
        ghost var before := View();
        MarkAllStep(before, worker, verdicts, now, backoff);
        MarkOutcome(c, v, now, backoff(c.attempts + 1));
        workers := workers[worker := workers[worker][1..]];
        assert View() == Marked(before, worker, v, now, backoff(c.attempts + 1));
        match v {
          case Delivered => sent := sent + 1;
          case Transient => failed := failed + 1;
          case Permanent => bounced := bounced + 1;
        }
      }
      NothingLeft(View(), worker, verdicts, now, backoff);
      report := DeliveryReport(total, sent, failed, bounced);
    }
  }
}
