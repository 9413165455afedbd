/** What each step of the notification queue does to each row, and when, over the tables before and after. */
module NotificationEffects {
  import opened Common
  import opened NotificationDesk
  import opened Notifications

  // ---------------------------------------------------------------- looking rows up

  lemma {:induction false} FindIff(notes: seq<Note>, id: Id)
    ensures Find(notes, id).None? <==> forall i :: 0 <= i < |notes| ==> notes[i].id != id
  {
    if notes != [] {
      var front := notes[..|notes| - 1];
      FindIff(front, id);
      assert forall i :: 0 <= i < |front| ==> front[i] == notes[i];
    }
  }

  lemma {:induction false} FindKeyIff(notes: seq<Note>, key: string)
    ensures FindKey(notes, key).None? <==> forall i :: 0 <= i < |notes| ==> notes[i].dedupeKey != key
  {
    if notes != [] {
      var front := notes[..|notes| - 1];
      FindKeyIff(front, key);
      assert forall i :: 0 <= i < |front| ==> front[i] == notes[i];
    }
  }

  /** Only row `i` changed, to this. */
  ghost predicate OnlyRow(before: seq<Note>, after: seq<Note>, i: nat, n: Note) {
    && i < |before| == |after|
    && forall k :: 0 <= k < |before| ==> after[k] == if k == i then n else before[k]
  }

  // ---------------------------------------------------------------- the service

  /** A new key is queued as a fresh row with five attempts or as many as asked; a known key changes nothing. */
  lemma EnqueueSays(q: Queue, id: Id, key: string, content: Content, max: Option<int>, now: int)
    ensures var (after, owner, created) := Enqueued(q, id, key, content, max, now);
      && (created <==> forall i :: 0 <= i < |q.notes| ==> q.notes[i].dedupeKey != key)
      && (if created then
            var allowed := match max case None => 5 case Some(m) => m;
            owner == id && after == q.(notes := q.notes + [Note(id, key, content, Pending, 0, allowed, now, now)])
          else after == q && exists i :: 0 <= i < |q.notes| && q.notes[i].dedupeKey == key && q.notes[i].id == owner)
  {
    hide FindKey;
    FindKeyIff(q.notes, key);
  }

  /** A resend is accepted exactly of a row that is neither waiting nor being sent, and queues its content anew. */
  lemma {:induction false} ResendIff(q: Queue, id: Id, newId: Id, recipient: Option<string>, now: int)
    ensures var r := Resent(q, id, newId, recipient, now);
      match Find(q.notes, id)
      case None => r == Err(NotFound) && forall i :: 0 <= i < |q.notes| ==> q.notes[i].id != id
      case Some(i) =>
        var n := q.notes[i];
        var key := n.dedupeKey + "#resend:" + newId;
        var taken := exists k :: 0 <= k < |q.notes| && (q.notes[k].id == newId || q.notes[k].dedupeKey == key);
        && n.id == id
        && (r.Ok? <==> n.status in {Sent, Failed, Bounced, CalledOff} && !taken)
        && (r == Err(NotResendable) <==> n.status in {Pending, Sending})
        && (r.Err? ==> r.error in {NotResendable, KeyTaken})
        && (r.Ok? ==> r.value == q.(notes := q.notes + [Note(newId, key,
              Content(n.content.template, match recipient case None => n.content.recipient case Some(to) => to,
                      n.content.body, n.content.order),
              Pending, 0, n.maxAttempts, now, now)]))
  {
    hide Find, FindKey;
    FindIff(q.notes, id);
    FindIff(q.notes, newId);
    if Find(q.notes, id).Some? {
      FindKeyIff(q.notes, q.notes[Find(q.notes, id).value].dedupeKey + "#resend:" + newId);
    }
  }

  /** A row is called off exactly while it waits or has failed. */
  lemma {:induction false} CancelIff(q: Queue, id: Id, now: int)
    ensures var r := Cancelled(q, id, now);
      match Find(q.notes, id)
      case None => r == Err(NotFound) && forall i :: 0 <= i < |q.notes| ==> q.notes[i].id != id
      case Some(i) =>
        && q.notes[i].id == id
        && (r.Ok? <==> q.notes[i].status in {Pending, Failed})
        && (r.Err? ==> r.error == NotCancellable)
        && (r.Ok? ==> r.value == q.(notes := r.value.notes)
                      && OnlyRow(q.notes, r.value.notes, i, q.notes[i].(status := CalledOff, updatedAt := now)))
  {
    hide Find;
    FindIff(q.notes, id);
  }

  // ---------------------------------------------------------------- the worker

  /** A row is taken exactly when it waits or has failed, its time has come and attempts are left; then only it and the list change. */
  lemma {:induction false} ClaimIff(q: Queue, worker: Id, id: Id, now: int)
    ensures var after := ClaimRow(q, worker, id, now);
      match Find(q.notes, id)
      case None => after == q && forall i :: 0 <= i < |q.notes| ==> q.notes[i].id != id
      case Some(i) =>
        var n := q.notes[i];
        if n.status in {Pending, Failed} && n.nextAttemptAt <= now && n.attempts < n.maxAttempts then
          && OnlyRow(q.notes, after.notes, i, n.(status := Sending, updatedAt := now))
          && after.workers == q.workers[worker := Mine(q, worker) + [Claimed(id, n.attempts)]]
          && after == q.(notes := after.notes, workers := after.workers)
        else after == q
  {
    hide Find;
    FindIff(q.notes, id);
  }

  /**
   * Marking: one log line, the row's status, its attempts counted from what the worker remembers, the
   * next attempt only after a transient failure, and an event exactly for a delivered confirmation of an order.
   */
  lemma MarkSays(q: Queue, c: Claimed, v: Verdict, now: int, delay: int)
    ensures var after := MarkRow(q, c, v, now, delay);
      match Find(q.notes, c.id)
      case None => after == q && forall i :: 0 <= i < |q.notes| ==> q.notes[i].id != c.id
      case Some(i) =>
        var n := q.notes[i];
        && OnlyRow(q.notes, after.notes, i,
             Note(n.id, n.dedupeKey, n.content, match v case Delivered => Sent case Transient => Failed case Permanent => Bounced,
                  c.attempts + 1, n.maxAttempts, if v == Transient then now + delay else n.nextAttemptAt, now))
        && after.log == q.log + [Attempt(c.id, c.attempts + 1, v)]
        && after.delivered == q.delivered
             + (if v == Delivered && n.content.template == "order_confirmation" && n.content.order.Some? then [c.id] else [])
        && after.workers == q.workers
  {
    hide Find;
    FindIff(q.notes, c.id);
    assert q.delivered + [] == q.delivered;
  }

  /** A worker marks the first row on its list and takes it off. */
  lemma MarkedSays(q: Queue, worker: Id, v: Verdict, now: int, delay: int)
    ensures var after, mine := Marked(q, worker, v, now, delay), Mine(q, worker);
      if mine == [] then after == q
      else
        && Mine(after, worker) == mine[1..]
        && after == MarkRow(q, mine[0], v, now, delay).(workers := after.workers)
        && after.workers == q.workers[worker := mine[1..]]
  {
    hide MarkRow;
  }

  /** Exactly the rows sending for longer than the threshold fail over; attempts and times stay. */
  lemma {:induction false} SweepSays(notes: seq<Note>, now: int, stalledAfter: int)
    ensures var after := SweptNotes(notes, now, stalledAfter);
      && |after| == |notes|
      && forall k :: 0 <= k < |notes| ==>
           after[k] == if notes[k].status == Sending && notes[k].updatedAt < now - stalledAfter
                       then notes[k].(status := Failed, updatedAt := now) else notes[k]
  {
    if notes != [] {
      SweepSays(notes[..|notes| - 1], now, stalledAfter);
    }
  }

  ghost predicate Stalled(n: Note, now: int, stalledAfter: int) {
    n.status == Sending && stalledAfter < now - n.updatedAt
  }

  /** The sweep reports how many rows were being sent and had not moved for longer than the limit. */
  lemma {:induction false} StalledAreHowMany(notes: seq<Note>, now: int, stalledAfter: int)
    ensures StalledCount(notes, now, stalledAfter) == |set i | 0 <= i < |notes| && Stalled(notes[i], now, stalledAfter)|
  {
    if notes != [] {
      var front, n := notes[..|notes| - 1], |notes| - 1;
      StalledAreHowMany(front, now, stalledAfter);
      hide Stalled;
      var before := set i | 0 <= i < |front| && Stalled(front[i], now, stalledAfter);
      var all := set i | 0 <= i < |notes| && Stalled(notes[i], now, stalledAfter);
      forall i ensures i in all <==> i in before || (i == n && Stalled(notes[n], now, stalledAfter)) {
        assert 0 <= i < n ==> front[i] == notes[i];
      }
      if Stalled(notes[n], now, stalledAfter) {
        assert all == before + {n};
      } else {
        assert all == before;
      }
      StalledIff(notes[n], now, stalledAfter);
    }
  }

  lemma StalledIff(n: Note, now: int, stalledAfter: int)
    ensures Stalled(n, now, stalledAfter) <==> n.status == Sending && n.updatedAt < now - stalledAfter
  {
  }

  // ---------------------------------------------------------------- a whole batch

  lemma {:induction false} VerdictPush(mine: seq<Claimed>, c: Claimed, verdicts: Id -> Verdict, v: Verdict)
    ensures VerdictCount(mine + [c], verdicts, v) == VerdictCount(mine, verdicts, v) + (if verdicts(c.id) == v then 1 else 0)
  {
    if mine == [] {
      assert [] + [c] == [c];
    } else {
      VerdictPush(mine[1..], c, verdicts, v);
      assert (mine + [c])[1..] == mine[1..] + [c];
    }
  }

  /** The counters of a report are the numbers of rows with each verdict. */
  lemma {:induction false} VerdictsAreHowMany(mine: seq<Claimed>, verdicts: Id -> Verdict, v: Verdict, n: nat)
    requires n <= |mine|
    ensures VerdictCount(mine[..n], verdicts, v) == |set i | 0 <= i < n && verdicts(mine[i].id) == v|
  {
    if n > 0 {
      hide VerdictCount;
      VerdictsAreHowMany(mine, verdicts, v, n - 1);
      VerdictPush(mine[..n - 1], mine[n - 1], verdicts, v);
      assert mine[..n] == mine[..n - 1] + [mine[n - 1]];
      var before := set i | 0 <= i < n - 1 && verdicts(mine[i].id) == v;
      var all := set i | 0 <= i < n && verdicts(mine[i].id) == v;
      if verdicts(mine[n - 1].id) == v {
        assert all == before + {n - 1};
      } else {
        assert all == before;
      }
    }
  }

  /** No row is on the list twice. */
  ghost predicate DistinctClaims(mine: seq<Claimed>) {
    forall i, j :: 0 <= i < j < |mine| ==> mine[i].id != mine[j].id
  }

  /** What marking does to the row a claim is for. */
  function MarkedNote(n: Note, c: Claimed, v: Verdict, now: int, backoff: int -> int): Note {
    Note(n.id, n.dedupeKey, n.content, match v case Delivered => Sent case Transient => Failed case Permanent => Bounced,
         c.attempts + 1, n.maxAttempts, if v == Transient then now + backoff(c.attempts + 1) else n.nextAttemptAt, now)
  }

  /** A worker's batch marks each row it holds once, by its own verdict, and no other row. */
  lemma {:induction false} BatchMarksEach(q: Queue, worker: Id, verdicts: Id -> Verdict, now: int, backoff: int -> int)
    requires DistinctClaims(Mine(q, worker)) && forall j :: 0 <= j < |Mine(q, worker)| ==> Find(q.notes, Mine(q, worker)[j].id).Some?
    ensures var after, mine := MarkAll(q, worker, verdicts, now, backoff), Mine(q, worker);
      && |after.notes| == |q.notes| && Mine(after, worker) == []
      && (forall j :: 0 <= j < |mine| ==>
            var k := Find(q.notes, mine[j].id).value;
            after.notes[k] == MarkedNote(q.notes[k], mine[j], verdicts(mine[j].id), now, backoff))
      && (forall k: nat :: k < |q.notes| && (forall j :: 0 <= j < |mine| ==> Find(q.notes, mine[j].id) != Some(k)) ==>
            after.notes[k] == q.notes[k])
      && |after.log| == |q.log| + |mine|
    decreases |Mine(q, worker)|
  {
    hide Find;
    var mine := Mine(q, worker);
    if mine != [] {
      var c := mine[0];
      var v, delay := verdicts(c.id), backoff(c.attempts + 1);
      var next := Marked(q, worker, v, now, delay);
      MarkShrinks(q, worker, v, now, delay);
      MarkedSays(q, worker, v, now, delay);
      MarkSays(q, c, v, now, delay);
      var i := Find(q.notes, c.id).value;
      forall x ensures Find(next.notes, x) == Find(q.notes, x) {
        FindUpdate(q.notes, i, next.notes[i], x, "");
        assert next.notes == q.notes[i := next.notes[i]];
      }
      forall j | 0 <= j < |mine| - 1 ensures mine[1..][j] == mine[j + 1] && Find(q.notes, mine[j + 1].id).value != i {
        FoundHasId(q.notes, mine[j + 1].id);
        FoundHasId(q.notes, c.id);
      }
      BatchMarksEach(next, worker, verdicts, now, backoff);
      var after := MarkAll(q, worker, verdicts, now, backoff);
      assert after == MarkAll(next, worker, verdicts, now, backoff);
      forall j | 0 <= j < |mine| ensures
        var k := Find(q.notes, mine[j].id).value;
        after.notes[k] == MarkedNote(q.notes[k], mine[j], verdicts(mine[j].id), now, backoff)
      {
        if j > 0 {
          assert mine[1..][j - 1] == mine[j];
        } else {
          assert forall h :: 0 <= h < |mine[1..]| ==> Find(next.notes, mine[1..][h].id) != Some(i);
        }
      }
    }
  }

  lemma {:induction false} FoundHasId(notes: seq<Note>, id: Id)
    requires Find(notes, id).Some?
    ensures notes[Find(notes, id).value].id == id
  {
  }
}
