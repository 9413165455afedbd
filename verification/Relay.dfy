/**
 * The transactional outbox relay: rows are claimed under row locks that others skip, published, and
 * marked in the claiming transaction. A crash anywhere before the commit gives the rows back.
 */
module Relay {
  import opened Common

  type Id = string

  datatype OutboxRow = OutboxRow(id: Id, seqNo: int, relayedAt: Option<int>)

  /** What one relay holds locked, and whether the publisher has accepted it. */
  datatype Batch = Batch(ids: seq<Id>, sent: bool)

  /** The table in sequence order, the relays' locks, and everything that ever reached the broker. */
  datatype Outbox = Outbox(rows: seq<OutboxRow>, held: map<Id, Batch>, published: seq<Id>, emitted: seq<Id>)

  const EMPTY: Outbox := Outbox([], map[], [], [])

  // ---------------------------------------------------------------- the table

  predicate HasRow(rows: seq<OutboxRow>, id: Id) {
    rows != [] && (rows[0].id == id || HasRow(rows[1..], id))
  }

  /** The row is there and not relayed. */
  predicate Waiting(rows: seq<OutboxRow>, id: Id) {
    rows != [] && ((rows[0].id == id && rows[0].relayedAt.None?) || Waiting(rows[1..], id))
  }

  predicate IsRelayed(rows: seq<OutboxRow>, id: Id) {
    rows != [] && ((rows[0].id == id && rows[0].relayedAt.Some?) || IsRelayed(rows[1..], id))
  }

  /** Sequence numbers are drawn at insert, so a row may become visible behind a later one. */
  function PutInOrder(rows: seq<OutboxRow>, r: OutboxRow): seq<OutboxRow> {
    if rows == [] || rows[0].seqNo > r.seqNo then [r] + rows else [rows[0]] + PutInOrder(rows[1..], r)
  }

  /** `WHERE relayed_at IS NULL ORDER BY sequence LIMIT n FOR UPDATE SKIP LOCKED`. */
  function Claimable(rows: seq<OutboxRow>, locked: set<Id>, n: nat): seq<Id> {
    if rows == [] || n == 0 then []
    else if rows[0].relayedAt.None? && rows[0].id !in locked then [rows[0].id] + Claimable(rows[1..], locked, n - 1)
    else Claimable(rows[1..], locked, n)
  }

  function Marked(rows: seq<OutboxRow>, ids: seq<Id>, now: int): seq<OutboxRow> {
    if rows == [] then []
    else [if rows[0].id in ids then rows[0].(relayedAt := Some(now)) else rows[0]] + Marked(rows[1..], ids, now)
  }

  function Pruned(rows: seq<OutboxRow>, cutoff: int): seq<OutboxRow> {
    if rows == [] then []
    else if rows[0].relayedAt.Some? && rows[0].relayedAt.value < cutoff then Pruned(rows[1..], cutoff)
    else [rows[0]] + Pruned(rows[1..], cutoff)
  }

  function Locked(held: map<Id, Batch>): set<Id> {
    set r, id | r in held && id in held[r].ids :: id
  }

  // ---------------------------------------------------------------- steps, in any order

  datatype Event =
    | Emit(id: Id, seqNo: int)
    | Claim(relay: Id, batchSize: nat)
    | Publish(relay: Id)
    | PublishFails(relay: Id, accepted: nat)
    | Commit(relay: Id, now: int)
    | Crash(relay: Id)
    | Prune(cutoff: int)

  function Step(o: Outbox, e: Event): Outbox {
    match e
    case Emit(id, seqNo) =>
      if HasRow(o.rows, id) then o
      else o.(rows := PutInOrder(o.rows, OutboxRow(id, seqNo, None)), emitted := o.emitted + [id])
    case Claim(relay, n) =>
      var ids := Claimable(o.rows, Locked(o.held), n);
      if relay in o.held || ids == [] then o else o.(held := o.held[relay := Batch(ids, false)])
    case Publish(relay) =>
      if relay !in o.held || o.held[relay].sent then o
      else o.(published := o.published + o.held[relay].ids, held := o.held[relay := o.held[relay].(sent := true)])
    case PublishFails(relay, accepted) =>
      if relay !in o.held || o.held[relay].sent then o
      else
        var ids := o.held[relay].ids;
        o.(published := o.published + (if accepted <= |ids| then ids[..accepted] else ids), held := o.held - {relay})
    case Commit(relay, now) =>
      if relay !in o.held || !o.held[relay].sent then o
      else o.(rows := Marked(o.rows, o.held[relay].ids, now), held := o.held - {relay})
    case Crash(relay) => o.(held := o.held - {relay})
    case Prune(cutoff) => o.(rows := Pruned(o.rows, cutoff))
  }

  function Run(es: seq<Event>): Outbox {
    if es == [] then EMPTY else Step(Run(es[..|es| - 1]), es[|es| - 1])
  }

  // ---------------------------------------------------------------- what every step keeps

  predicate HeldOk(o: Outbox, relay: Id)
    requires relay in o.held
  {
    forall id :: id in o.held[relay].ids ==> Waiting(o.rows, id) && (o.held[relay].sent ==> id in o.published)
  }

  predicate Disjoint(a: seq<Id>, b: seq<Id>) {
    forall id :: id in a ==> id !in b
  }

  ghost predicate LocksOk(o: Outbox) {
    && (forall r :: r in o.held ==> HeldOk(o, r))
    && (forall r, s :: r in o.held && s in o.held && r != s ==> Disjoint(o.held[r].ids, o.held[s].ids))
  }

  /** A relayed row was published, and an emitted event is still waiting or was published. */
  ghost predicate NothingLost(o: Outbox) {
    && (forall id :: IsRelayed(o.rows, id) ==> id in o.published)
    && (forall id :: id in o.emitted ==> Waiting(o.rows, id) || id in o.published)
  }

  ghost predicate OutboxOk(o: Outbox) {
    LocksOk(o) && NothingLost(o)
  }

  lemma {:induction false} PutMembers(rows: seq<OutboxRow>, r: OutboxRow, id: Id)
    ensures Waiting(PutInOrder(rows, r), id) <==> Waiting(rows, id) || (r.id == id && r.relayedAt.None?)
    ensures IsRelayed(PutInOrder(rows, r), id) <==> IsRelayed(rows, id) || (r.id == id && r.relayedAt.Some?)
  {
    if rows == [] || rows[0].seqNo > r.seqNo {
      assert ([r] + rows)[1..] == rows;
    } else {
      PutMembers(rows[1..], r, id);
      assert ([rows[0]] + PutInOrder(rows[1..], r))[1..] == PutInOrder(rows[1..], r);
    }
  }

  lemma {:induction false} MarkedMembers(rows: seq<OutboxRow>, ids: seq<Id>, now: int, id: Id)
    ensures Waiting(Marked(rows, ids, now), id) <==> Waiting(rows, id) && id !in ids
    ensures IsRelayed(Marked(rows, ids, now), id) ==> IsRelayed(rows, id) || id in ids
  {
    if rows != [] {
      MarkedMembers(rows[1..], ids, now, id);
      assert Marked(rows, ids, now)[1..] == Marked(rows[1..], ids, now);
    }
  }

  lemma {:induction false} PrunedMembers(rows: seq<OutboxRow>, cutoff: int, id: Id)
    ensures Waiting(Pruned(rows, cutoff), id) <==> Waiting(rows, id)
    ensures IsRelayed(Pruned(rows, cutoff), id) ==> IsRelayed(rows, id)
  {
    if rows != [] {
      PrunedMembers(rows[1..], cutoff, id);
      var rest := Pruned(rows[1..], cutoff);
      assert ([rows[0]] + rest)[1..] == rest;
    }
  }

  lemma {:induction false} ClaimedIsWaiting(rows: seq<OutboxRow>, locked: set<Id>, n: nat, id: Id)
    requires id in Claimable(rows, locked, n)
    ensures Waiting(rows, id) && id !in locked
  {
    if rows[0].relayedAt.None? && rows[0].id !in locked {
      if id != rows[0].id {
        ClaimedIsWaiting(rows[1..], locked, n - 1, id);
      }
    } else {
      ClaimedIsWaiting(rows[1..], locked, n, id);
    }
  }

  lemma EmitKeeps(o: Outbox, id: Id, seqNo: int)
    requires OutboxOk(o)
    ensures OutboxOk(Step(o, Emit(id, seqNo)))
  {
    hide Waiting, IsRelayed, PutInOrder;
    var after := Step(o, Emit(id, seqNo));
    if after != o {
      var r := OutboxRow(id, seqNo, None);
      forall x ensures Waiting(after.rows, x) <==> Waiting(o.rows, x) || x == id { PutMembers(o.rows, r, x); }
      forall x ensures IsRelayed(after.rows, x) <==> IsRelayed(o.rows, x) { PutMembers(o.rows, r, x); }
      forall s | s in after.held ensures HeldOk(after, s) {
        assert HeldOk(o, s);
      }
    }
  }

  lemma ClaimKeeps(o: Outbox, relay: Id, n: nat)
    requires OutboxOk(o)
    ensures OutboxOk(Step(o, Claim(relay, n)))
  {
    hide Waiting, IsRelayed, Claimable;
    var after := Step(o, Claim(relay, n));
    if after != o {
      var ids := Claimable(o.rows, Locked(o.held), n);
      forall id | id in ids ensures Waiting(o.rows, id) && id !in Locked(o.held) {
        ClaimedIsWaiting(o.rows, Locked(o.held), n, id);
      }
      forall s | s in after.held ensures HeldOk(after, s) {
        assert s != relay ==> HeldOk(o, s);
      }
      forall s | s in o.held ensures Disjoint(ids, o.held[s].ids) && Disjoint(o.held[s].ids, ids) {
        assert forall id :: id in o.held[s].ids ==> id in Locked(o.held);
      }
    }
  }

  /** Giving locks back, or publishing, changes no row. */
  lemma ReleaseKeeps(o: Outbox, relay: Id, more: seq<Id>)
    requires OutboxOk(o)
    ensures OutboxOk(o.(held := o.held - {relay}, published := o.published + more))
  {
    hide Waiting, IsRelayed;
    var after := o.(held := o.held - {relay}, published := o.published + more);
    forall s | s in after.held ensures HeldOk(after, s) {
      assert HeldOk(o, s);
    }
  }

  lemma PublishKeeps(o: Outbox, relay: Id)
    requires OutboxOk(o)
    ensures OutboxOk(Step(o, Publish(relay)))
  {
    hide Waiting, IsRelayed;
    var after := Step(o, Publish(relay));
    forall s | s in after.held ensures HeldOk(after, s) {
      assert HeldOk(o, s);
    }
  }

  lemma CommitKeeps(o: Outbox, relay: Id, now: int)
    requires OutboxOk(o) && relay in o.held && o.held[relay].sent
    ensures OutboxOk(Step(o, Commit(relay, now)))
  {
    hide Waiting, IsRelayed, Marked;
    var after, ids := Step(o, Commit(relay, now)), o.held[relay].ids;
    assert HeldOk(o, relay);
    forall x ensures Waiting(after.rows, x) <==> Waiting(o.rows, x) && x !in ids { MarkedMembers(o.rows, ids, now, x); }
    forall x | IsRelayed(after.rows, x) ensures x in after.published { MarkedMembers(o.rows, ids, now, x); }
    forall s | s in after.held ensures HeldOk(after, s) {
      assert HeldOk(o, s) && Disjoint(o.held[s].ids, ids);
    }
  }

  lemma PruneKeeps(o: Outbox, cutoff: int)
    requires OutboxOk(o)
    ensures OutboxOk(Step(o, Prune(cutoff)))
  {
    hide Waiting, IsRelayed, Pruned;
    var after := Step(o, Prune(cutoff));
    forall x ensures Waiting(after.rows, x) <==> Waiting(o.rows, x) { PrunedMembers(o.rows, cutoff, x); }
    forall x | IsRelayed(after.rows, x) ensures x in after.published { PrunedMembers(o.rows, cutoff, x); }
    forall s | s in after.held ensures HeldOk(after, s) {
      assert HeldOk(o, s);
    }
  }

  lemma StepKeeps(o: Outbox, e: Event)
    requires OutboxOk(o)
    ensures OutboxOk(Step(o, e))
  {
    hide OutboxOk, Waiting, IsRelayed, Marked, Pruned, PutInOrder, Claimable;
    match e {
      case Emit(id, seqNo) => EmitKeeps(o, id, seqNo);
      case Claim(relay, n) => ClaimKeeps(o, relay, n);
      case Publish(relay) => PublishKeeps(o, relay);
      case PublishFails(relay, accepted) =>
        if relay in o.held && !o.held[relay].sent {
          var ids := o.held[relay].ids;
          ReleaseKeeps(o, relay, if accepted <= |ids| then ids[..accepted] else ids);
        }
      case Commit(relay, now) =>
        if relay in o.held && o.held[relay].sent { CommitKeeps(o, relay, now); }
      case Crash(relay) =>
        ReleaseKeeps(o, relay, []);
        assert o.published + [] == o.published;
      case Prune(cutoff) => PruneKeeps(o, cutoff);
    }
  }

  /**
   * At least once: whatever crashes, fails or is pruned, every event ever emitted is still waiting
   * in the outbox or has been published; nothing unpublished is marked relayed; no row is held twice.
   */
  lemma {:induction false} AtLeastOnce(es: seq<Event>)
    ensures OutboxOk(Run(es))
  {
    hide OutboxOk, Step;
    if es == [] {
      EmptyIsOk();
    } else {
      AtLeastOnce(es[..|es| - 1]);
      StepKeeps(Run(es[..|es| - 1]), es[|es| - 1]);
    }
  }

  lemma EmptyIsOk()
    ensures OutboxOk(EMPTY)
  {
  }

  /** No row is held by two relays at once. */
  lemma {:induction false} HeldByOne(es: seq<Event>, a: Id, b: Id, id: Id)
    requires a in Run(es).held && b in Run(es).held && a != b && id in Run(es).held[a].ids
    ensures id !in Run(es).held[b].ids && Waiting(Run(es).rows, id)
  {
    hide Step, Waiting;
    AtLeastOnce(es);
    var o := Run(es);
    assert Disjoint(o.held[a].ids, o.held[b].ids) && HeldOk(o, a);
  }

  // ---------------------------------------------------------------- progress, oldest first

  /** The waiting rows nobody holds, in table order. */
  function WaitingIds(rows: seq<OutboxRow>, locked: set<Id>): seq<Id> {
    if rows == [] then []
    else if rows[0].relayedAt.None? && rows[0].id !in locked then [rows[0].id] + WaitingIds(rows[1..], locked)
    else WaitingIds(rows[1..], locked)
  }

  predicate DistinctRows(rows: seq<OutboxRow>) {
    rows == [] || (!HasRow(rows[1..], rows[0].id) && DistinctRows(rows[1..]))
  }

  predicate InOrder(rows: seq<OutboxRow>) {
    |rows| <= 1 || (rows[0].seqNo <= rows[1].seqNo && InOrder(rows[1..]))
  }

  lemma {:induction false} InOrderAt(rows: seq<OutboxRow>, i: nat, j: nat)
    requires InOrder(rows) && i < j < |rows|
    ensures rows[i].seqNo <= rows[j].seqNo
  {
    if i > 0 {
      InOrderAt(rows[1..], i - 1, j - 1);
    } else if j > 1 {
      InOrderAt(rows[1..], 0, j - 1);
    }
  }

  lemma {:induction false} PutHas(rows: seq<OutboxRow>, r: OutboxRow, id: Id)
    ensures HasRow(PutInOrder(rows, r), id) <==> HasRow(rows, id) || r.id == id
  {
    if rows == [] || rows[0].seqNo > r.seqNo {
      assert ([r] + rows)[1..] == rows;
    } else {
      PutHas(rows[1..], r, id);
      assert ([rows[0]] + PutInOrder(rows[1..], r))[1..] == PutInOrder(rows[1..], r);
    }
  }

  lemma {:induction false} PutKeepsTable(rows: seq<OutboxRow>, r: OutboxRow)
    requires DistinctRows(rows) && InOrder(rows) && !HasRow(rows, r.id)
    ensures DistinctRows(PutInOrder(rows, r)) && InOrder(PutInOrder(rows, r))
  {
    if rows == [] || rows[0].seqNo > r.seqNo {
      assert ([r] + rows)[1..] == rows;
    } else {
      PutKeepsTable(rows[1..], r);
      PutHas(rows[1..], r, rows[0].id);
      assert ([rows[0]] + PutInOrder(rows[1..], r))[1..] == PutInOrder(rows[1..], r);
    }
  }

  lemma {:induction false} MarkedHas(rows: seq<OutboxRow>, ids: seq<Id>, now: int, id: Id)
    ensures HasRow(Marked(rows, ids, now), id) <==> HasRow(rows, id)
  {
    if rows != [] {
      MarkedHas(rows[1..], ids, now, id);
      assert Marked(rows, ids, now)[1..] == Marked(rows[1..], ids, now);
    }
  }

  lemma {:induction false} MarkedKeepsTable(rows: seq<OutboxRow>, ids: seq<Id>, now: int)
    requires DistinctRows(rows) && InOrder(rows)
    ensures DistinctRows(Marked(rows, ids, now)) && InOrder(Marked(rows, ids, now))
  {
    if rows != [] {
      MarkedKeepsTable(rows[1..], ids, now);
      MarkedHas(rows[1..], ids, now, rows[0].id);
      assert Marked(rows, ids, now)[1..] == Marked(rows[1..], ids, now);
    }
  }

  lemma {:induction false} PrunedHas(rows: seq<OutboxRow>, cutoff: int, id: Id)
    requires HasRow(Pruned(rows, cutoff), id)
    ensures HasRow(rows, id)
  {
    var rest := Pruned(rows[1..], cutoff);
    assert ([rows[0]] + rest)[1..] == rest;
    if rows[0].id != id {
      PrunedHas(rows[1..], cutoff, id);
    }
  }

  lemma {:induction false} PrunedKeepsTable(rows: seq<OutboxRow>, cutoff: int)
    requires DistinctRows(rows) && InOrder(rows)
    ensures DistinctRows(Pruned(rows, cutoff)) && InOrder(Pruned(rows, cutoff))
    ensures Pruned(rows, cutoff) != [] ==> rows != [] && rows[0].seqNo <= Pruned(rows, cutoff)[0].seqNo
  {
    if rows != [] {
      PrunedKeepsTable(rows[1..], cutoff);
      var rest := Pruned(rows[1..], cutoff);
      assert ([rows[0]] + rest)[1..] == rest;
      if HasRow(rest, rows[0].id) {
        PrunedHas(rows[1..], cutoff, rows[0].id);
      }
    }
  }

  lemma {:induction false} StepKeepsTable(o: Outbox, e: Event)
    requires DistinctRows(o.rows) && InOrder(o.rows)
    ensures DistinctRows(Step(o, e).rows) && InOrder(Step(o, e).rows)
  {
    hide DistinctRows, InOrder, HasRow, PutInOrder, Marked, Pruned, Claimable;
    match e
    case Emit(id, seqNo) =>
      if !HasRow(o.rows, id) { PutKeepsTable(o.rows, OutboxRow(id, seqNo, None)); }
    case Commit(relay, now) =>
      if relay in o.held { MarkedKeepsTable(o.rows, o.held[relay].ids, now); }
    case Prune(cutoff) => PrunedKeepsTable(o.rows, cutoff);
    case _ =>
  }

  /** In every reachable state no id stands twice in the table, and its rows are in sequence order. */
  lemma {:induction false} TableIsInOrder(es: seq<Event>)
    ensures DistinctRows(Run(es).rows) && InOrder(Run(es).rows)
    ensures forall i, j :: 0 <= i < j < |Run(es).rows| ==> Run(es).rows[i].seqNo <= Run(es).rows[j].seqNo
  {
    hide Step;
    if es != [] {
      hide DistinctRows, InOrder;
      TableIsInOrder(es[..|es| - 1]);
      StepKeepsTable(Run(es[..|es| - 1]), es[|es| - 1]);
    }
    forall i, j | 0 <= i < j < |Run(es).rows| ensures Run(es).rows[i].seqNo <= Run(es).rows[j].seqNo {
      InOrderAt(Run(es).rows, i, j);
    }
  }

  /** Marking sets the time on exactly the rows named. */
  lemma {:induction false} MarkedRowByRow(rows: seq<OutboxRow>, ids: seq<Id>, now: int)
    ensures |Marked(rows, ids, now)| == |rows|
    ensures forall k :: 0 <= k < |rows| ==>
      Marked(rows, ids, now)[k] == if rows[k].id in ids then OutboxRow(rows[k].id, rows[k].seqNo, Some(now)) else rows[k]
  {
    if rows != [] {
      MarkedRowByRow(rows[1..], ids, now);
      assert Marked(rows, ids, now)[1..] == Marked(rows[1..], ids, now);
    }
  }

  /** Pruning keeps exactly the rows not relayed, or not before the cutoff. */
  lemma {:induction false} PrunedIff(rows: seq<OutboxRow>, cutoff: int, r: OutboxRow)
    ensures r in Pruned(rows, cutoff) <==> r in rows && (r.relayedAt.None? || r.relayedAt.value >= cutoff)
  {
    if rows != [] {
      PrunedIff(rows[1..], cutoff, r);
      assert rows == [rows[0]] + rows[1..];
    }
  }

  function FirstOf(ids: seq<Id>, n: nat): seq<Id> {
    if n <= |ids| then ids[..n] else ids
  }

  /** A claim takes the first waiting rows that nobody holds, whatever the others hold. */
  lemma {:induction false} ClaimsTheOldest(rows: seq<OutboxRow>, locked: set<Id>, n: nat)
    ensures Claimable(rows, locked, n) == FirstOf(WaitingIds(rows, locked), n)
  {
    if rows != [] && n > 0 {
      if rows[0].relayedAt.None? && rows[0].id !in locked {
        ClaimsTheOldest(rows[1..], locked, n - 1);
        var rest := WaitingIds(rows[1..], locked);
        assert FirstOf([rows[0].id] + rest, n) == [rows[0].id] + FirstOf(rest, n - 1);
      } else {
        ClaimsTheOldest(rows[1..], locked, n);
      }
    }
  }

  lemma {:induction false} ClaimedRow(rows: seq<OutboxRow>, locked: set<Id>, n: nat, id: Id)
    requires id in Claimable(rows, locked, n)
    ensures HasRow(rows, id)
  {
    if rows[0].id != id {
      ClaimedRow(rows[1..], locked, if rows[0].relayedAt.None? && rows[0].id !in locked then n - 1 else n, id);
    }
  }

  lemma {:induction false} MarkOther(rows: seq<OutboxRow>, first: Id, ids: seq<Id>, now: int)
    requires !HasRow(rows, first)
    ensures Marked(rows, [first] + ids, now) == Marked(rows, ids, now)
  {
    if rows != [] {
      MarkOther(rows[1..], first, ids, now);
    }
  }

  /** Marking what was claimed leaves exactly the rest waiting. */
  lemma {:induction false} MarkDrains(rows: seq<OutboxRow>, locked: set<Id>, n: nat, now: int)
    requires DistinctRows(rows)
    ensures var ids := Claimable(rows, locked, n);
      WaitingIds(rows, locked) == ids + WaitingIds(Marked(rows, ids, now), locked)
  {
    if rows == [] {
    } else if n == 0 {
      MarkNone(rows, now);
    } else if rows[0].relayedAt.None? && rows[0].id !in locked {
      MarkDrains(rows[1..], locked, n - 1, now);
      var ids := Claimable(rows[1..], locked, n - 1);
      MarkOther(rows[1..], rows[0].id, ids, now);
      assert Marked(rows, [rows[0].id] + ids, now)[1..] == Marked(rows[1..], ids, now);
    } else {
      MarkDrains(rows[1..], locked, n, now);
      var ids := Claimable(rows, locked, n);
      if rows[0].id in ids {
        ClaimedRow(rows[1..], locked, n, rows[0].id);
      }
      assert Marked(rows, ids, now)[1..] == Marked(rows[1..], ids, now);
    }
  }

  /**
   * After any run, one pass of a free relay publishes exactly the oldest waiting rows that no other
   * relay holds, in order and up to the batch size, and leaves the others waiting and held as they were.
   */
  lemma {:induction false} PassDrains(es: seq<Event>, relay: Id, n: nat, now: int)
    requires relay !in Run(es).held
    ensures var o, after := Run(es), Run(es + [Claim(relay, n), Publish(relay), Commit(relay, now)]);
      var waiting := WaitingIds(o.rows, Locked(o.held));
      && after.published == o.published + FirstOf(waiting, n)
      && waiting == FirstOf(waiting, n) + WaitingIds(after.rows, Locked(o.held))
      && after.held == o.held && after.emitted == o.emitted
  {
    hide Run, Claimable, WaitingIds, Marked, Locked, DistinctRows, InOrder, FirstOf;
    var o := Run(es);
    var ids := Claimable(o.rows, Locked(o.held), n);
    ThreeMore(es, Claim(relay, n), Publish(relay), Commit(relay, now));
    TableIsInOrder(es);
    ClaimsTheOldest(o.rows, Locked(o.held), n);
    MarkDrains(o.rows, Locked(o.held), n, now);
    if ids == [] {
      MarkNone(o.rows, now);
      assert o.published + [] == o.published;
    } else {
      assert o.held[relay := Batch(ids, false)][relay := Batch(ids, true)] - {relay} == o.held;
    }
  }

  lemma {:induction false} ThreeMore(es: seq<Event>, a: Event, b: Event, c: Event)
    ensures Run(es + [a, b, c]) == Step(Step(Step(Run(es), a), b), c)
  {
    hide Step;
    var one, two, three := es + [a], es + [a, b], es + [a, b, c];
    assert three[..|three| - 1] == two && two[..|two| - 1] == one && one[..|one| - 1] == es;
    assert Run(two) == Step(Run(one), b) && Run(one) == Step(Run(es), a);
  }

  lemma {:induction false} MarkNone(rows: seq<OutboxRow>, now: int)
    ensures Marked(rows, [], now) == rows
  {
    if rows != [] {
      MarkNone(rows[1..], now);
    }
  }

  lemma {:induction false} NothingToMark(ids: seq<Id>, now: int)
    ensures Marked([], ids, now) == []
  {
  }

  lemma {:induction false} MarkedHead(rows: seq<OutboxRow>, ids: seq<Id>, now: int)
    requires rows != []
    ensures Marked(rows, ids, now) ==
      [if rows[0].id in ids then rows[0].(relayedAt := Some(now)) else rows[0]] + Marked(rows[1..], ids, now)
  {
  }

  // ---------------------------------------------------------------- one relay, in place

  class OutboxRelay {
    var rows: seq<OutboxRow>
    var published: seq<Id>
    const batchSize: nat

    constructor (batchSize: nat)
      ensures rows == [] && published == [] && this.batchSize == batchSize
    {
      this.batchSize := batchSize;
      rows, published := [], [];
    }

    /**
     * Claim, publish, mark, in one transaction. When the publisher throws after accepting some of
     * the batch, the rows stay unrelayed and will be published again.
     */
    method RunOnce(locked: set<Id>, accepted: Option<nat>, now: int) returns (count: nat)
      modifies this
      ensures var ids := Claimable(old(rows), locked, batchSize);
        match accepted
        case None => count == |ids| && published == old(published) + ids && rows == Marked(old(rows), ids, now)
        case Some(k) => count == 0 && rows == old(rows) && published == old(published) + FirstOf(ids, k)
    {
      hide Claimable, Marked;
      count := 0;
      var ids := Claimable(rows, locked, batchSize);
      if accepted.Some? {
        published := published + FirstOf(ids, accepted.value);
        return;
      }
      published := published + ids;
      MarkRelayed(ids, now);
      count := |ids|;
    }

    method MarkRelayed(ids: seq<Id>, now: int)
      modifies this`rows
      ensures rows == Marked(old(rows), ids, now)
    {
      hide Marked;
      var before, marked, i := rows, [], 0;
      assert before[0..] == before;
      while i < |before|
        invariant 0 <= i <= |before|
        invariant marked + Marked(before[i..], ids, now) == Marked(before, ids, now)
      {
        ghost var rest := before[i..];
        assert rest[1..] == before[i + 1..];
        var row := if before[i].id in ids then before[i].(relayedAt := Some(now)) else before[i];
        MarkedHead(rest, ids, now);
        assert (marked + [row]) + Marked(rest[1..], ids, now) == marked + ([row] + Marked(rest[1..], ids, now));
        marked := marked + [row];
        i := i + 1;
      }
      NothingToMark(ids, now);
      rows := marked;
    }
  }
}
