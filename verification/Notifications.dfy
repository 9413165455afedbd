/**
 * The notification queue: rows are claimed in one transaction, sent outside any, and marked in
 * another; a worker that dies in between leaves its rows for the sweep.
 */
module Notifications {
  import opened Common

  type Id = string

  datatype Status = Pending | Sending | Sent | Failed | Bounced | CalledOff

  datatype Content = Content(template: string, recipient: string, body: string, order: Option<Id>)

  datatype Note = Note(id: Id, dedupeKey: string, content: Content, status: Status, attempts: int, maxAttempts: int,
                       nextAttemptAt: int, updatedAt: int)

  datatype Verdict = Delivered | Transient | Permanent

  /** One line of the append-only attempt log. */
  datatype Attempt = Attempt(note: Id, no: int, verdict: Verdict)

  /** What a worker remembers of a row it claimed. */
  datatype Claimed = Claimed(id: Id, attempts: int)

  /** Rows, attempt log, `confirmation_delivered` events, and what each live worker still has to send. */
  datatype Queue = Queue(notes: seq<Note>, log: seq<Attempt>, delivered: seq<Id>, workers: map<Id, seq<Claimed>>)

  const EMPTY: Queue := Queue([], [], [], map[])

  const CONFIRMATION: string := "order_confirmation"

  function Find(notes: seq<Note>, id: Id): (r: Option<nat>)
    ensures r.Some? ==> r.value < |notes| && notes[r.value].id == id
  {
    if notes == [] then None
    else if notes[|notes| - 1].id == id then Some(|notes| - 1)
    else Find(notes[..|notes| - 1], id)
  }

  function FindKey(notes: seq<Note>, key: string): (r: Option<nat>)
    ensures r.Some? ==> r.value < |notes| && notes[r.value].dedupeKey == key
  {
    if notes == [] then None
    else if notes[|notes| - 1].dedupeKey == key then Some(|notes| - 1)
    else FindKey(notes[..|notes| - 1], key)
  }

  // ---------------------------------------------------------------- the service

  datatype NoteError = NotFound | NotResendable | NotCancellable | KeyTaken

  const DEFAULT_MAX: int := 5

  /** `enqueueWith`: the row that owns the key, and whether this call created it. */
  function Enqueued(q: Queue, id: Id, key: string, content: Content, max: Option<int>, now: int): (Queue, Id, bool) {
    match FindKey(q.notes, key)
    case Some(i) => (q, q.notes[i].id, false)
    case None =>
      var limit := if max.Some? then max.value else DEFAULT_MAX;
      (q.(notes := q.notes + [Note(id, key, content, Pending, 0, limit, now, now)]), id, true)
  }

  function ResendKey(key: string, newId: Id): string {
    key + "#resend:" + newId
  }

  /** `resend`: a new row with the stored content, never a reset of the old one. */
  function Resent(q: Queue, id: Id, newId: Id, recipient: Option<string>, now: int): Result<Queue, NoteError> {
    match Find(q.notes, id)
    case None => Err(NotFound)
    case Some(i) =>
      var n := q.notes[i];
      if n.status == Pending || n.status == Sending then Err(NotResendable)
      else if FindKey(q.notes, ResendKey(n.dedupeKey, newId)).Some? || Find(q.notes, newId).Some? then Err(KeyTaken)
      else
        var content := if recipient.Some? then n.content.(recipient := recipient.value) else n.content;
        Ok(q.(notes := q.notes + [Note(newId, ResendKey(n.dedupeKey, newId), content, Pending, 0, n.maxAttempts, now, now)]))
  }

  /** `cancel`: only what has not gone out and is not being sent. */
  function Cancelled(q: Queue, id: Id, now: int): Result<Queue, NoteError> {
    match Find(q.notes, id)
    case None => Err(NotFound)
    case Some(i) =>
      var n := q.notes[i];
      if n.status != Pending && n.status != Failed then Err(NotCancellable)
      else Ok(q.(notes := q.notes[i := n.(status := CalledOff, updatedAt := now)]))
  }

  // ---------------------------------------------------------------- the worker

  predicate Due(n: Note, now: int) {
    (n.status == Pending || n.status == Failed) && n.nextAttemptAt <= now && n.attempts < n.maxAttempts
  }

  /** Claim the rows named, which the query picked from those due. */
  function ClaimRow(q: Queue, worker: Id, id: Id, now: int): Queue {
    match Find(q.notes, id)
    case None => q
    case Some(i) =>
      if !Due(q.notes[i], now) then q
      else
        var mine := if worker in q.workers then q.workers[worker] else [];
        q.(notes := q.notes[i := q.notes[i].(status := Sending, updatedAt := now)],
           workers := q.workers[worker := mine + [Claimed(id, q.notes[i].attempts)]])
  }

  function StatusFor(v: Verdict): Status {
    match v case Delivered => Sent case Transient => Failed case Permanent => Bounced
  }

  /** `markSent`, `markFailed`, `markBounced`: log line, row and event in one transaction. */
  function MarkRow(q: Queue, c: Claimed, v: Verdict, now: int, delay: int): Queue {
    match Find(q.notes, c.id)
    case None => q
    case Some(i) =>
      var n := q.notes[i];
      var marked := n.(status := StatusFor(v), attempts := c.attempts + 1, updatedAt := now,
                       nextAttemptAt := if v == Transient then now + delay else n.nextAttemptAt);
      var confirms := v == Delivered && n.content.template == CONFIRMATION && n.content.order.Some?;
      q.(notes := q.notes[i := marked], log := q.log + [Attempt(c.id, c.attempts + 1, v)],
         delivered := if confirms then q.delivered + [c.id] else q.delivered)
  }

  /** The worker marks the first row it still has. */
  function Marked(q: Queue, worker: Id, v: Verdict, now: int, delay: int): Queue {
    if worker !in q.workers || q.workers[worker] == [] then q
    else
      var mine := q.workers[worker];
      MarkRow(q, mine[0], v, now, delay).(workers := q.workers[worker := mine[1..]])
  }

  /** `reclaimStalled`: rows left in sending go back to the queue; attempts stay as they were. */
  function SweptNotes(notes: seq<Note>, now: int, stalledAfter: int): seq<Note> {
    if notes == [] then []
    else
      var n := notes[|notes| - 1];
      SweptNotes(notes[..|notes| - 1], now, stalledAfter)
      + [if n.status == Sending && n.updatedAt < now - stalledAfter then n.(status := Failed, updatedAt := now) else n]
  }

  // ---------------------------------------------------------------- steps, in any order

  datatype Event =
    | Enqueue(id: Id, key: string, content: Content, max: Option<int>, now: int)
    | Resend(id: Id, newId: Id, recipient: Option<string>, now: int)
    | Cancel(id: Id, now: int)
    | Claim(worker: Id, id: Id, now: int)
    | Mark(worker: Id, verdict: Verdict, now: int, delay: int)
    | Crash(worker: Id)
    | Sweep(now: int, stalledAfter: int)

  function Kept(q: Queue, r: Result<Queue, NoteError>): Queue {
    match r case Ok(after) => after case Err(_) => q
  }

  function Step(q: Queue, e: Event): Queue {
    match e
    case Enqueue(id, key, content, max, now) => if Find(q.notes, id).Some? then q else Enqueued(q, id, key, content, max, now).0
    case Resend(id, newId, recipient, now) => Kept(q, Resent(q, id, newId, recipient, now))
    case Cancel(id, now) => Kept(q, Cancelled(q, id, now))
    case Claim(worker, id, now) => ClaimRow(q, worker, id, now)
    case Mark(worker, v, now, delay) => Marked(q, worker, v, now, delay)
    case Crash(worker) => q.(workers := q.workers - {worker})
    case Sweep(now, stalledAfter) => q.(notes := SweptNotes(q.notes, now, stalledAfter))
  }

  function Run(es: seq<Event>): Queue {
    if es == [] then EMPTY else Step(Run(es[..|es| - 1]), es[|es| - 1])
  }

  predicate Holds(mine: seq<Claimed>, id: Id) {
    mine != [] && (mine[0].id == id || Holds(mine[1..], id))
  }

  /** The sweep's threshold is long enough that it only meets rows of dead workers. */
  ghost predicate SweepsTheDead(q: Queue, now: int, stalledAfter: int) {
    forall w, i :: w in q.workers && 0 <= i < |q.notes| && Holds(q.workers[w], q.notes[i].id) ==>
      q.notes[i].updatedAt >= now - stalledAfter
  }

  ghost predicate Admissible(es: seq<Event>) {
    es == [] || (
      var q, e := Run(es[..|es| - 1]), es[|es| - 1];
      Admissible(es[..|es| - 1]) && (e.Sweep? ==> SweepsTheDead(q, e.now, e.stalledAfter)))
  }

  // ---------------------------------------------------------------- what every step keeps

  function LogCount(log: seq<Attempt>, id: Id): nat {
    if log == [] then 0
    else
      var front := LogCount(log[..|log| - 1], id);
      if log[|log| - 1].note == id then front + 1 else front
  }

  function IdCount(ids: seq<Id>, id: Id): nat {
    if ids == [] then 0
    else
      var front := IdCount(ids[..|ids| - 1], id);
      if ids[|ids| - 1] == id then front + 1 else front
  }

  predicate Confirms(n: Note) {
    n.status == Sent && n.content.template == CONFIRMATION && n.content.order.Some?
  }

  function Max(a: int, b: int): int {
    if a < b then b else a
  }

  /** Attempts are what the log says and never exceed the limit; a confirmation is delivered exactly when sent. */
  predicate NoteOk(q: Queue, i: nat)
    requires i < |q.notes|
  {
    var n := q.notes[i];
    && Find(q.notes, n.id) == Some(i) && FindKey(q.notes, n.dedupeKey) == Some(i)
    && 0 <= n.attempts == LogCount(q.log, n.id) <= Max(0, n.maxAttempts)
    && IdCount(q.delivered, n.id) == (if Confirms(n) then 1 else 0)
  }

  /** A claimed row is being sent, has attempts to spare, and is as the worker remembers it. */
  predicate ClaimOk(notes: seq<Note>, c: Claimed) {
    Find(notes, c.id).Some?
    && (var n := notes[Find(notes, c.id).value];
        n.status == Sending && n.attempts == c.attempts && n.attempts < n.maxAttempts)
  }

  predicate ClaimsOk(notes: seq<Note>, mine: seq<Claimed>) {
    mine == [] || (ClaimOk(notes, mine[0]) && !Holds(mine[1..], mine[0].id) && ClaimsOk(notes, mine[1..]))
  }

  ghost predicate WorkersOk(q: Queue) {
    && (forall w :: w in q.workers ==> ClaimsOk(q.notes, q.workers[w]))
    && (forall w, v, id :: w in q.workers && v in q.workers && w != v && Holds(q.workers[w], id) ==> !Holds(q.workers[v], id))
  }

  ghost predicate NotesOk(q: Queue) {
    (forall i :: 0 <= i < |q.notes| ==> NoteOk(q, i))
    && (forall id :: Find(q.notes, id).None? ==> LogCount(q.log, id) == 0 && IdCount(q.delivered, id) == 0)
  }

  ghost predicate QueueOk(q: Queue) {
    NotesOk(q) && WorkersOk(q)
  }

  lemma {:induction false} FindUpdate(notes: seq<Note>, i: nat, n: Note, id: Id, key: string)
    requires i < |notes| && n.id == notes[i].id && n.dedupeKey == notes[i].dedupeKey
    ensures Find(notes[i := n], id) == Find(notes, id) && FindKey(notes[i := n], key) == FindKey(notes, key)
  {
    var front := notes[..|notes| - 1];
    if i < |front| {
      FindUpdate(front, i, n, id, key);
      assert notes[i := n][..|front|] == front[i := n];
    } else {
      assert notes[i := n][..|front|] == front;
    }
  }

  lemma {:induction false} FindPush(notes: seq<Note>, n: Note, id: Id, key: string)
    ensures Find(notes + [n], id) == if n.id == id then Some(|notes|) else Find(notes, id)
    ensures FindKey(notes + [n], key) == if n.dedupeKey == key then Some(|notes|) else FindKey(notes, key)
  {
    assert (notes + [n])[..|notes|] == notes;
  }

  lemma {:induction false} CountPush(log: seq<Attempt>, a: Attempt, ids: seq<Id>, x: Id, id: Id)
    ensures LogCount(log + [a], id) == LogCount(log, id) + (if a.note == id then 1 else 0)
    ensures IdCount(ids + [x], id) == IdCount(ids, id) + (if x == id then 1 else 0)
  {
    assert (log + [a])[..|log|] == log && (ids + [x])[..|ids|] == ids;
  }

  /** Claims see only the rows they name. */
  lemma {:induction false} ClaimsFrame(before: seq<Note>, after: seq<Note>, mine: seq<Claimed>)
    requires ClaimsOk(before, mine)
    requires forall c: Claimed :: Holds(mine, c.id) && ClaimOk(before, c) ==> ClaimOk(after, c)
    ensures ClaimsOk(after, mine)
  {
    hide ClaimOk;
    if mine != [] {
      ClaimsFrame(before, after, mine[1..]);
    }
  }

  // ---------------------------------------------------------------- new rows

  lemma PushKeeps(q: Queue, n: Note)
    requires QueueOk(q) && Find(q.notes, n.id).None? && FindKey(q.notes, n.dedupeKey).None?
    requires n.status == Pending && n.attempts == 0
    ensures QueueOk(q.(notes := q.notes + [n]))
  {
    hide Find, FindKey, LogCount, IdCount, Holds, ClaimsOk;
    var after := q.(notes := q.notes + [n]);
    forall i | 0 <= i < |after.notes| ensures NoteOk(after, i) {
      FindPush(q.notes, n, after.notes[i].id, after.notes[i].dedupeKey);
      assert i < |q.notes| ==> NoteOk(q, i);
    }
    forall id | Find(after.notes, id).None? ensures LogCount(q.log, id) == 0 && IdCount(q.delivered, id) == 0 {
      FindPush(q.notes, n, id, "");
    }
    forall w | w in q.workers ensures ClaimsOk(after.notes, q.workers[w]) {
      forall c: Claimed | Holds(q.workers[w], c.id) && ClaimOk(q.notes, c) ensures ClaimOk(after.notes, c) {
        FindPush(q.notes, n, c.id, "");
      }
      ClaimsFrame(q.notes, after.notes, q.workers[w]);
    }
  }

  lemma {:induction false} EnqueueKeeps(q: Queue, id: Id, key: string, content: Content, max: Option<int>, now: int)
    requires QueueOk(q) && Find(q.notes, id).None?
    ensures QueueOk(Enqueued(q, id, key, content, max, now).0)
  {
    hide QueueOk, Find, FindKey;
    if FindKey(q.notes, key).None? {
      PushKeeps(q, Note(id, key, content, Pending, 0, if max.Some? then max.value else DEFAULT_MAX, now, now));
    }
  }

  lemma ResendKeeps(q: Queue, id: Id, newId: Id, recipient: Option<string>, now: int)
    requires QueueOk(q) && Resent(q, id, newId, recipient, now).Ok?
    ensures QueueOk(Resent(q, id, newId, recipient, now).value)
  {
    hide QueueOk, Find, FindKey, ResendKey;
    var after := Resent(q, id, newId, recipient, now).value;
    PushKeeps(q, after.notes[|q.notes|]);
  }

  // ---------------------------------------------------------------- changing one row

  /** A row nobody is sending may change status without being sent. */
  lemma IdleRowKeeps(q: Queue, i: nat, n: Note)
    requires QueueOk(q) && i < |q.notes| && q.notes[i].status != Sending
    requires n == q.notes[i].(status := n.status, updatedAt := n.updatedAt)
    requires q.notes[i].status != Sent && n.status != Sent
    ensures QueueOk(q.(notes := q.notes[i := n]))
  {
    hide Find, FindKey, LogCount, IdCount, Holds, ClaimsOk;
    var after := q.(notes := q.notes[i := n]);
    assert NoteOk(q, i);
    forall j | 0 <= j < |after.notes| ensures NoteOk(after, j) {
      assert NoteOk(q, j);
      FindUpdate(q.notes, i, n, after.notes[j].id, after.notes[j].dedupeKey);
    }
    forall id | Find(after.notes, id).None? ensures LogCount(q.log, id) == 0 && IdCount(q.delivered, id) == 0 {
      FindUpdate(q.notes, i, n, id, "");
    }
    forall w | w in q.workers ensures ClaimsOk(after.notes, q.workers[w]) {
      forall c: Claimed | Holds(q.workers[w], c.id) && ClaimOk(q.notes, c) ensures ClaimOk(after.notes, c) {
        FindUpdate(q.notes, i, n, c.id, "");
      }
      ClaimsFrame(q.notes, after.notes, q.workers[w]);
    }
  }

  lemma CancelKeeps(q: Queue, id: Id, now: int)
    requires QueueOk(q) && Cancelled(q, id, now).Ok?
    ensures QueueOk(Cancelled(q, id, now).value)
  {
    hide QueueOk, Find;
    var i := Find(q.notes, id).value;
    IdleRowKeeps(q, i, q.notes[i].(status := CalledOff, updatedAt := now));
  }

  lemma {:induction false} HoldsPush(mine: seq<Claimed>, c: Claimed, id: Id)
    ensures Holds(mine + [c], id) <==> Holds(mine, id) || c.id == id
  {
    if mine == [] {
      assert mine + [c] == [c];
    } else {
      HoldsPush(mine[1..], c, id);
      assert (mine + [c])[1..] == mine[1..] + [c];
    }
  }

  lemma {:induction false} ClaimsPush(notes: seq<Note>, mine: seq<Claimed>, c: Claimed)
    requires ClaimsOk(notes, mine) && ClaimOk(notes, c) && !Holds(mine, c.id)
    ensures ClaimsOk(notes, mine + [c])
  {
    hide ClaimOk;
    if mine == [] {
      assert mine + [c] == [c];
    } else {
      ClaimsPush(notes, mine[1..], c);
      HoldsPush(mine[1..], c, mine[0].id);
      assert (mine + [c])[1..] == mine[1..] + [c];
    }
  }

  /** A held row is being sent. */
  lemma {:induction false} HeldIsSending(notes: seq<Note>, mine: seq<Claimed>, id: Id)
    requires ClaimsOk(notes, mine) && Holds(mine, id)
    ensures Find(notes, id).Some? && notes[Find(notes, id).value].status == Sending
  {
    if mine[0].id != id {
      HeldIsSending(notes, mine[1..], id);
    }
  }

  lemma ClaimKeeps(q: Queue, worker: Id, id: Id, now: int)
    requires QueueOk(q)
    ensures QueueOk(ClaimRow(q, worker, id, now))
  {
    hide LogCount, IdCount, Find, FindKey, Holds, ClaimsOk, NoteOk;
    var after := ClaimRow(q, worker, id, now);
    if after != q {
      var i := Find(q.notes, id).value;
      var n := q.notes[i].(status := Sending, updatedAt := now);
      ClaimNotesKeep(q, i, n, after);
      forall w | w in q.workers ensures !Holds(q.workers[w], id) && ClaimsOk(after.notes, q.workers[w]) {
        if Holds(q.workers[w], id) {
          HeldIsSending(q.notes, q.workers[w], id);
        }
        forall c: Claimed | Holds(q.workers[w], c.id) && ClaimOk(q.notes, c) ensures ClaimOk(after.notes, c) {
          FindUpdate(q.notes, i, n, c.id, "");
        }
        ClaimsFrame(q.notes, after.notes, q.workers[w]);
      }
      var mine: seq<Claimed> := if worker in q.workers then q.workers[worker] else [];
      var c := Claimed(id, q.notes[i].attempts);
      FindUpdate(q.notes, i, n, id, "");
      NothingHeld(after.notes, id);
      ClaimsPush(after.notes, mine, c);
      forall x ensures Holds(mine + [c], x) <==> Holds(mine, x) || x == id { HoldsPush(mine, c, x); }
      forall x ensures !Holds([], x) { NothingHeld(after.notes, x); }
    }
  }

  lemma {:induction false} NothingHeld(notes: seq<Note>, id: Id)
    ensures !Holds([], id) && ClaimsOk(notes, [])
  {
  }

  lemma ClaimNotesKeep(q: Queue, i: nat, n: Note, after: Queue)
    requires NotesOk(q) && i < |q.notes| && q.notes[i].status != Sent
    requires n == q.notes[i].(status := Sending, updatedAt := n.updatedAt)
    requires after.notes == q.notes[i := n] && after.log == q.log && after.delivered == q.delivered
    ensures NotesOk(after)
  {
    hide Find, FindKey, LogCount, IdCount;
    assert NoteOk(q, i);
    forall j | 0 <= j < |after.notes| ensures NoteOk(after, j) {
      assert NoteOk(q, j);
      FindUpdate(q.notes, i, n, after.notes[j].id, after.notes[j].dedupeKey);
    }
    forall id | Find(after.notes, id).None? ensures LogCount(q.log, id) == 0 && IdCount(q.delivered, id) == 0 {
      FindUpdate(q.notes, i, n, id, "");
    }
  }

  // ---------------------------------------------------------------- marking

  lemma MarkNotesKeep(q: Queue, c: Claimed, v: Verdict, now: int, delay: int)
    requires NotesOk(q) && ClaimOk(q.notes, c)
    ensures NotesOk(MarkRow(q, c, v, now, delay))
  {
    hide Find, FindKey, LogCount, IdCount;
    var after := MarkRow(q, c, v, now, delay);
    var i := Find(q.notes, c.id).value;
    var n := after.notes[i];
    assert NoteOk(q, i);
    forall j | 0 <= j < |after.notes| ensures NoteOk(after, j) {
      assert NoteOk(q, j);
      FindUpdate(q.notes, i, n, after.notes[j].id, after.notes[j].dedupeKey);
      CountPush(q.log, Attempt(c.id, c.attempts + 1, v), q.delivered, c.id, after.notes[j].id);
    }
    forall id | Find(after.notes, id).None? ensures LogCount(after.log, id) == 0 && IdCount(after.delivered, id) == 0 {
      FindUpdate(q.notes, i, n, id, "");
      CountPush(q.log, Attempt(c.id, c.attempts + 1, v), q.delivered, c.id, id);
    }
  }

  lemma {:induction false} MarkOthersKeep(q: Queue, c: Claimed, v: Verdict, now: int, delay: int, mine: seq<Claimed>)
    requires Find(q.notes, c.id).Some? && ClaimsOk(q.notes, mine) && !Holds(mine, c.id)
    ensures ClaimsOk(MarkRow(q, c, v, now, delay).notes, mine)
  {
    hide Find, Holds, ClaimsOk;
    var after := MarkRow(q, c, v, now, delay);
    var i := Find(q.notes, c.id).value;
    forall d: Claimed | Holds(mine, d.id) && ClaimOk(q.notes, d) ensures ClaimOk(after.notes, d) {
      FindUpdate(q.notes, i, after.notes[i], d.id, "");
      assert d.id != c.id;
    }
    ClaimsFrame(q.notes, after.notes, mine);
  }

  lemma {:induction false} ClaimsHead(notes: seq<Note>, mine: seq<Claimed>)
    requires ClaimsOk(notes, mine) && mine != []
    ensures ClaimOk(notes, mine[0]) && !Holds(mine[1..], mine[0].id) && ClaimsOk(notes, mine[1..])
    ensures forall id :: Holds(mine, id) <==> id == mine[0].id || Holds(mine[1..], id)
  {
  }

  lemma MarkedKeeps(q: Queue, worker: Id, v: Verdict, now: int, delay: int)
    requires QueueOk(q)
    ensures QueueOk(Marked(q, worker, v, now, delay))
  {
    hide NotesOk, Holds, ClaimsOk, ClaimOk, MarkRow;
    if worker in q.workers && q.workers[worker] != [] {
      var mine := q.workers[worker];
      var c := mine[0];
      ClaimsHead(q.notes, mine);
      assert Find(q.notes, c.id).Some? by { ClaimIsKnown(q.notes, c); }
      MarkNotesKeep(q, c, v, now, delay);
      var after := Marked(q, worker, v, now, delay);
      forall w | w in after.workers ensures ClaimsOk(after.notes, after.workers[w]) {
        assert !Holds(after.workers[w], c.id);
        MarkOthersKeep(q, c, v, now, delay, after.workers[w]);
      }
      SameNotes(MarkRow(q, c, v, now, delay), after);
    }
  }

  lemma {:induction false} ClaimIsKnown(notes: seq<Note>, c: Claimed)
    requires ClaimOk(notes, c)
    ensures Find(notes, c.id).Some?
  {
  }

  lemma SameNotes(a: Queue, b: Queue)
    requires NotesOk(a) && b.notes == a.notes && b.log == a.log && b.delivered == a.delivered
    ensures NotesOk(b)
  {
    hide Find, FindKey, LogCount, IdCount;
    forall i | 0 <= i < |b.notes| ensures NoteOk(b, i) {
      assert NoteOk(a, i);
    }
  }

  // ---------------------------------------------------------------- the sweep

  /** A swept row, or the row as it was. */
  predicate SweptFrom(before: Note, after: Note, now: int, stalledAfter: int) {
    after == if before.status == Sending && before.updatedAt < now - stalledAfter
             then before.(status := Failed, updatedAt := now) else before
  }

  lemma {:induction false} SweptAt(notes: seq<Note>, now: int, stalledAfter: int, i: nat)
    requires i < |notes|
    ensures |SweptNotes(notes, now, stalledAfter)| == |notes|
    ensures SweptFrom(notes[i], SweptNotes(notes, now, stalledAfter)[i], now, stalledAfter)
  {
    var front := notes[..|notes| - 1];
    if front != [] {
      SweptAt(front, now, stalledAfter, if i < |front| then i else 0);
    }
  }

  lemma {:induction false} SweptFind(notes: seq<Note>, now: int, stalledAfter: int, id: Id, key: string)
    ensures Find(SweptNotes(notes, now, stalledAfter), id) == Find(notes, id)
    ensures FindKey(SweptNotes(notes, now, stalledAfter), key) == FindKey(notes, key)
    ensures |SweptNotes(notes, now, stalledAfter)| == |notes|
  {
    if notes != [] {
      var front := SweptNotes(notes[..|notes| - 1], now, stalledAfter);
      SweptFind(notes[..|notes| - 1], now, stalledAfter, id, key);
      assert SweptNotes(notes, now, stalledAfter)[..|front|] == front;
    }
  }

  lemma {:induction false} SweepKeeps(q: Queue, now: int, stalledAfter: int)
    requires QueueOk(q) && SweepsTheDead(q, now, stalledAfter)
    ensures QueueOk(q.(notes := SweptNotes(q.notes, now, stalledAfter)))
  {
    hide Find, FindKey, LogCount, IdCount, Holds, ClaimsOk, SweptNotes;
    var after := q.(notes := SweptNotes(q.notes, now, stalledAfter));
    SweptFind(q.notes, now, stalledAfter, "", "");
    forall j | 0 <= j < |after.notes| ensures NoteOk(after, j) {
      SweptAt(q.notes, now, stalledAfter, j);
      assert NoteOk(q, j);
      SweptFind(q.notes, now, stalledAfter, after.notes[j].id, after.notes[j].dedupeKey);
    }
    forall id | Find(after.notes, id).None? ensures LogCount(q.log, id) == 0 && IdCount(q.delivered, id) == 0 {
      SweptFind(q.notes, now, stalledAfter, id, "");
    }
    forall w | w in q.workers ensures ClaimsOk(after.notes, q.workers[w]) {
      forall c: Claimed | Holds(q.workers[w], c.id) && ClaimOk(q.notes, c) ensures ClaimOk(after.notes, c) {
        SweptFind(q.notes, now, stalledAfter, c.id, "");
        SweptAt(q.notes, now, stalledAfter, Find(q.notes, c.id).value);
      }
      ClaimsFrame(q.notes, after.notes, q.workers[w]);
    }
  }

  // ---------------------------------------------------------------- runs

  lemma StepKeeps(q: Queue, e: Event)
    requires QueueOk(q) && (e.Sweep? ==> SweepsTheDead(q, e.now, e.stalledAfter))
    ensures QueueOk(Step(q, e))
  {
    match e {
      case Enqueue(id, key, content, max, now) =>
        if Find(q.notes, id).None? { EnqueueKeeps(q, id, key, content, max, now); }
      case Resend(id, newId, recipient, now) =>
        if Resent(q, id, newId, recipient, now).Ok? { ResendKeeps(q, id, newId, recipient, now); }
      case Cancel(id, now) =>
        if Cancelled(q, id, now).Ok? { CancelKeeps(q, id, now); }
      case Claim(worker, id, now) => ClaimKeeps(q, worker, id, now);
      case Mark(worker, v, now, delay) => MarkedKeeps(q, worker, v, now, delay);
      case Crash(worker) => SameNotes(q, q.(workers := q.workers - {worker}));
      case Sweep(now, stalledAfter) => SweepKeeps(q, now, stalledAfter);
    }
  }

  lemma {:induction false} RunIsOk(es: seq<Event>)
    requires Admissible(es)
    ensures QueueOk(Run(es))
  {
    hide QueueOk, Step;
    if es == [] {
      EmptyIsOk();
    } else {
      RunIsOk(es[..|es| - 1]);
      StepKeeps(Run(es[..|es| - 1]), es[|es| - 1]);
    }
  }

  lemma EmptyIsOk()
    ensures QueueOk(EMPTY)
  {
  }

  /**
   * Over every run whose sweeps only meet rows of dead workers: a row's attempts equal its logged
   * attempts and stay within its limit, and an order confirmation yields one delivered event exactly
   * when it was sent.
   */
  lemma {:induction false} AttemptsMatchTheLog(es: seq<Event>, i: nat)
    requires Admissible(es) && i < |Run(es).notes|
    ensures var q := Run(es);
      var n := q.notes[i];
      && n.attempts == LogCount(q.log, n.id) <= Max(0, n.maxAttempts)
      && IdCount(q.delivered, n.id) == (if Confirms(n) then 1 else 0)
  {
    hide Step, Find, FindKey, LogCount, IdCount, WorkersOk;
    RunIsOk(es);
    assert NoteOk(Run(es), i);
  }

  predicate KeyOk(notes: seq<Note>, i: nat)
    requires i < |notes|
  {
    FindKey(notes, notes[i].dedupeKey) == Some(i)
  }

  /** A look-up of any row's key finds that row. */
  ghost predicate KeysOk(notes: seq<Note>) {
    forall i :: 0 <= i < |notes| ==> KeyOk(notes, i)
  }

  lemma {:induction false} NewKeyKeepsKeys(notes: seq<Note>, n: Note)
    requires KeysOk(notes) && FindKey(notes, n.dedupeKey).None?
    ensures KeysOk(notes + [n])
  {
    hide FindKey;
    var after := notes + [n];
    forall i | 0 <= i < |after| ensures KeyOk(after, i) {
      FindPush(notes, n, "", after[i].dedupeKey);
      assert i < |notes| ==> KeyOk(notes, i);
    }
  }

  lemma UpdateKeepsKeys(notes: seq<Note>, i: nat, n: Note)
    requires KeysOk(notes) && i < |notes| && n.id == notes[i].id && n.dedupeKey == notes[i].dedupeKey
    ensures KeysOk(notes[i := n])
  {
    hide FindKey;
    var after := notes[i := n];
    forall j | 0 <= j < |after| ensures KeyOk(after, j) {
      FindUpdate(notes, i, n, "", after[j].dedupeKey);
      assert KeyOk(notes, j);
    }
  }

  lemma {:induction false} SweepKeepsKeys(notes: seq<Note>, now: int, stalledAfter: int)
    requires KeysOk(notes)
    ensures KeysOk(SweptNotes(notes, now, stalledAfter))
  {
    hide FindKey, SweptNotes;
    var after := SweptNotes(notes, now, stalledAfter);
    SweptFind(notes, now, stalledAfter, "", "");
    forall j | 0 <= j < |after| ensures KeyOk(after, j) {
      SweptAt(notes, now, stalledAfter, j);
      SweptFind(notes, now, stalledAfter, "", after[j].dedupeKey);
      assert KeyOk(notes, j);
    }
  }

  /** No step changes a key or takes one that is there. */
  lemma StepKeepsKeys(q: Queue, e: Event)
    requires KeysOk(q.notes)
    ensures KeysOk(Step(q, e).notes)
  {
    hide Find, FindKey, SweptNotes, ResendKey, KeysOk, Due;
    match e {
      case Enqueue(id, key, content, max, now) =>
        if Step(q, e) != q {
          NewKeyKeepsKeys(q.notes, Enqueued(q, id, key, content, max, now).0.notes[|q.notes|]);
        }
      case Resend(id, newId, recipient, now) =>
        if Resent(q, id, newId, recipient, now).Ok? {
          NewKeyKeepsKeys(q.notes, Step(q, e).notes[|q.notes|]);
        }
      case Cancel(id, now) =>
        if Find(q.notes, id).Some? {
          var i := Find(q.notes, id).value;
          UpdateKeepsKeys(q.notes, i, q.notes[i].(status := CalledOff, updatedAt := now));
        }
      case Claim(worker, id, now) =>
        if Find(q.notes, id).Some? {
          var i := Find(q.notes, id).value;
          UpdateKeepsKeys(q.notes, i, q.notes[i].(status := Sending, updatedAt := now));
        }
      case Mark(worker, v, now, delay) =>
        if worker in q.workers && q.workers[worker] != [] && Find(q.notes, q.workers[worker][0].id).Some? {
          var i := Find(q.notes, q.workers[worker][0].id).value;
          UpdateKeepsKeys(q.notes, i, Step(q, e).notes[i]);
        }
      case Crash(worker) =>
      case Sweep(now, stalledAfter) => SweepKeepsKeys(q.notes, now, stalledAfter);
    }
  }

  lemma {:induction false} RunKeepsKeys(es: seq<Event>)
    ensures KeysOk(Run(es).notes)
  {
    if es != [] {
      hide KeysOk, Step;
      RunKeepsKeys(es[..|es| - 1]);
      StepKeepsKeys(Run(es[..|es| - 1]), es[|es| - 1]);
    }
  }

  /** One row per dedupe key, over every run. */
  lemma {:induction false} OneRowPerKey(es: seq<Event>, i: nat, j: nat)
    requires i < |Run(es).notes| && j < |Run(es).notes|
    requires Run(es).notes[i].dedupeKey == Run(es).notes[j].dedupeKey
    ensures i == j
  {
    hide Run, FindKey;
    RunKeepsKeys(es);
    assert KeyOk(Run(es).notes, i) && KeyOk(Run(es).notes, j);
  }

  lemma HeldIsNotTerminal(q: Queue, worker: Id)
    requires WorkersOk(q) && worker in q.workers && q.workers[worker] != []
    ensures ClaimOk(q.notes, q.workers[worker][0])
  {
    ClaimsHead(q.notes, q.workers[worker]);
  }

  /** A sent, bounced or cancelled row is never claimed, marked, swept or otherwise touched again. */
  lemma TerminalStays(q: Queue, e: Event, i: nat)
    requires QueueOk(q) && i < |q.notes| && q.notes[i].status in {Sent, Bounced, CalledOff}
    ensures i < |Step(q, e).notes| && Step(q, e).notes[i] == q.notes[i]
  {
    hide Find, FindKey, LogCount, IdCount, Holds, ClaimsOk, SweptNotes, ResendKey;
    match e {
      case Mark(worker, v, now, delay) =>
        if worker in q.workers && q.workers[worker] != [] {
          HeldIsNotTerminal(q, worker);
        }
      case Sweep(now, stalledAfter) => SweptAt(q.notes, now, stalledAfter, i);
      case _ =>
    }
  }

  /** …over every later run. */
  lemma {:induction false} TerminalForever(es: seq<Event>, n: nat, i: nat)
    requires Admissible(es) && n <= |es| && i < |Run(es[..n]).notes|
    requires Run(es[..n]).notes[i].status in {Sent, Bounced, CalledOff}
    ensures i < |Run(es).notes| && Run(es).notes[i] == Run(es[..n]).notes[i]
    decreases |es|
  {
    hide Step, QueueOk;
    if n == |es| {
      assert es[..n] == es;
    } else {
      var front := es[..|es| - 1];
      assert front[..n] == es[..n];
      TerminalForever(front, n, i);
      RunIsOk(front);
      TerminalStays(Run(front), es[|es| - 1], i);
    }
  }

  /** Whatever the queue holds, only a worker that still has a terminal row on its list can touch it, by marking it. */
  lemma OnlyHoldersTouchTerminal(q: Queue, e: Event, i: nat)
    requires i < |q.notes| && q.notes[i].status in {Sent, Bounced, CalledOff}
    ensures i < |Step(q, e).notes|
    ensures Step(q, e).notes[i] != q.notes[i] ==>
      e.Mark? && e.worker in q.workers && q.workers[e.worker] != [] && Find(q.notes, q.workers[e.worker][0].id) == Some(i)
  {
    hide Find, FindKey, SweptNotes, ResendKey;
    if e.Sweep? {
      SweptAt(q.notes, e.now, e.stalledAfter, i);
    }
  }

  const HASTY: seq<Event> := [Enqueue("n", "k", Content("t", "r", "b", None), None, 0), Claim("a", "n", 0), Sweep(10, 5),
                              Claim("b", "n", 10), Mark("b", Delivered, 11, 0)]

  const LATE: Event := Mark("a", Transient, 12, 0)

  const ROW: Note := Note("n", "k", Content("t", "r", "b", None), Pending, 0, 5, 0, 0)

  lemma OneRow(n: Note)
    ensures Find([n], n.id) == Some(0)
  {
  }

  lemma FirstClaim()
    ensures Step(Queue([ROW], [], [], map[]), Claim("a", "n", 0)) ==
      Queue([ROW.(status := Sending)], [], [], map["a" := [Claimed("n", 0)]])
  {
    hide Find;
    OneRow(ROW);
    assert [ROW][0 := ROW.(status := Sending)] == [ROW.(status := Sending)];
    assert [] + [Claimed("n", 0)] == [Claimed("n", 0)];
  }

  lemma HastySweep()
    ensures Step(Queue([ROW.(status := Sending)], [], [], map["a" := [Claimed("n", 0)]]), Sweep(10, 5)) ==
      Queue([ROW.(status := Failed, updatedAt := 10)], [], [], map["a" := [Claimed("n", 0)]])
  {
    OneSwept(ROW.(status := Sending), 10, 5);
  }

  lemma SecondClaim()
    ensures Step(Queue([ROW.(status := Failed, updatedAt := 10)], [], [], map["a" := [Claimed("n", 0)]]), Claim("b", "n", 10)) ==
      Queue([ROW.(status := Sending, updatedAt := 10)], [], [], map["a" := [Claimed("n", 0)], "b" := [Claimed("n", 0)]])
  {
    hide Find;
    var n := ROW.(status := Failed, updatedAt := 10);
    OneRow(n);
    assert [n][0 := n.(status := Sending)] == [n.(status := Sending)];
    assert [] + [Claimed("n", 0)] == [Claimed("n", 0)];
  }

  /** Marking the only row. */
  lemma MarksIt(q: Queue, n: Note, worker: Id, v: Verdict, now: int)
    requires q.notes == [n] && worker in q.workers && q.workers[worker] != [] && q.workers[worker][0].id == n.id
    ensures |Step(q, Mark(worker, v, now, 0)).notes| == 1
    ensures Step(q, Mark(worker, v, now, 0)).notes[0].status == StatusFor(v)
    ensures Step(q, Mark(worker, v, now, 0)).notes[0].id == n.id
    ensures forall w :: w in q.workers && w != worker ==>
      w in Step(q, Mark(worker, v, now, 0)).workers && Step(q, Mark(worker, v, now, 0)).workers[w] == q.workers[w]
  {
    hide Find;
    OneRow(n);
  }

  /** A sweep that meets the row of a live worker: another one sends it, then the first marks it failed. */
  lemma HastySweepReopens()
    ensures |Run(HASTY).notes| == 1 && Run(HASTY).notes[0].status == Sent
    ensures |Run(HASTY + [LATE]).notes| == 1 && Run(HASTY + [LATE]).notes[0].status == Failed
  {
    hide Run, Marked, ClaimRow, SweptNotes, Find;
    RunPush([], HASTY[0]);
    RunPush(HASTY[..1], HASTY[1]);
    RunPush(HASTY[..2], HASTY[2]);
    RunPush(HASTY[..3], HASTY[3]);
    RunPush(HASTY[..4], HASTY[4]);
    RunPush(HASTY, LATE);
    assert [] + [HASTY[0]] == HASTY[..1] && HASTY[..1] + [HASTY[1]] == HASTY[..2] && HASTY[..2] + [HASTY[2]] == HASTY[..3];
    assert HASTY[..3] + [HASTY[3]] == HASTY[..4] && HASTY[..4] + [HASTY[4]] == HASTY;
    FirstRow();
    FirstClaim();
    HastySweep();
    SecondClaim();
    MarksIt(Run(HASTY[..4]), ROW.(status := Sending, updatedAt := 10), "b", Delivered, 11);
    MarksIt(Run(HASTY), Run(HASTY).notes[0], "a", Transient, 12);
  }

  lemma FirstRow()
    ensures Step(EMPTY, HASTY[0]) == Queue([ROW], [], [], map[])
  {
    assert [] + [ROW] == [ROW];
  }

  lemma {:induction false} OneSwept(n: Note, now: int, stalledAfter: int)
    ensures SweptNotes([n], now, stalledAfter) ==
      [if n.status == Sending && n.updatedAt < now - stalledAfter then n.(status := Failed, updatedAt := now) else n]
  {
    assert [n][..0] == [];
  }

  lemma {:induction false} RunPush(es: seq<Event>, e: Event)
    ensures Run(es + [e]) == Step(Run(es), e) && Run([]) == EMPTY
  {
    assert (es + [e])[..|es|] == es;
  }

  /** A resend leaves every existing row, the original included, exactly as it was and copies its content. */
  lemma {:induction false} ResendKeepsHistory(q: Queue, id: Id, newId: Id, recipient: Option<string>, now: int)
    requires Resent(q, id, newId, recipient, now).Ok?
    ensures var after := Resent(q, id, newId, recipient, now).value;
      var original := q.notes[Find(q.notes, id).value];
      && |after.notes| == |q.notes| + 1 && after.notes[..|q.notes|] == q.notes
      && after.log == q.log && after.delivered == q.delivered && after.workers == q.workers
      && after.notes[|q.notes|].content == original.content.(recipient :=
           if recipient.Some? then recipient.value else original.content.recipient)
      && after.notes[|q.notes|].status == Pending && after.notes[|q.notes|].attempts == 0
  {
    hide Find, FindKey, ResendKey;
  }

  /** Enqueueing a key again answers with the row that owns it and queues nothing. */
  lemma EnqueueIsIdempotent(q: Queue, id: Id, again: Id, key: string, content: Content, other: Content,
                            max: Option<int>, later: Option<int>, now: int, after: int)
    ensures var (first, owner, _) := Enqueued(q, id, key, content, max, now);
      Enqueued(first, again, key, other, later, after) == (first, owner, false)
  {
    hide Find;
    if FindKey(q.notes, key).None? {
      FindPush(q.notes, Enqueued(q, id, key, content, max, now).0.notes[|q.notes|], "", key);
    }
  }

  /** The sweep counts no attempt: a message may be handed to the mail server again without it showing. */
  lemma {:induction false} SweepCountsNoAttempt(q: Queue, now: int, stalledAfter: int, i: nat)
    requires i < |q.notes|
    ensures var after := SweptNotes(q.notes, now, stalledAfter);
      |after| == |q.notes| && after[i].attempts == q.notes[i].attempts
  {
    SweptAt(q.notes, now, stalledAfter, i);
  }

  /** Marking keeps attempts equal to the log exactly when the worker's memory of the row is current. */
  lemma MarkCountsIff(q: Queue, c: Claimed, v: Verdict, now: int, delay: int)
    requires Find(q.notes, c.id).Some?
    requires q.notes[Find(q.notes, c.id).value].attempts == LogCount(q.log, c.id)
    ensures var after := MarkRow(q, c, v, now, delay);
      (after.notes[Find(q.notes, c.id).value].attempts == LogCount(after.log, c.id)
       <==> c.attempts == q.notes[Find(q.notes, c.id).value].attempts)
  {
    hide Find, LogCount;
    CountPush(q.log, Attempt(c.id, c.attempts + 1, v), [], "", c.id);
  }
}
