/**
 * What a sync does to a device, and what every run of appends and syncs guarantees:
 * the mirror converges on the server's history plus exactly the still-pending commands.
 */
module PosConvergence {
  import opened Ledger
  import opened PosModel
  import opened PosOverlay
  import opened PosSync

  // ---------------------------------------------------------------- settling one command

  /** The command is in the log and still pending. */
  predicate IsPending(stored: seq<Stored>, c: Command) {
    stored != [] && (stored[|stored| - 1] == Stored(c, Pending) || IsPending(stored[..|stored| - 1], c))
  }

  lemma {:induction false} PendingIsStored(stored: seq<Stored>, c: Command)
    requires IsPending(stored, c)
    ensures HasStored(stored, c.id)
  {
    if stored[|stored| - 1] != Stored(c, Pending) {
      PendingIsStored(stored[..|stored| - 1], c);
    }
  }

  lemma {:induction false} MarkedLogOk(stored: seq<Stored>, id: Id, status: CommandStatus)
    requires LogOk(stored)
    ensures LogOk(Marked(stored, id, status))
  {
    if stored != [] {
      hide WellShaped, CommandToMovements, HasStored, LastSeq, Marked;
      var front := stored[..|stored| - 1];
      MarkedLogOk(front, id, status);
      MarkedHas(front, id, status, stored[|stored| - 1].command.id);
      MarkedStep(stored, id, status);
    }
  }

  lemma {:induction false} MarkedAbsent(stored: seq<Stored>, id: Id, status: CommandStatus)
    requires !HasStored(stored, id)
    ensures Marked(stored, id, status) == stored
  {
    if stored != [] {
      MarkedAbsent(stored[..|stored| - 1], id, status);
    }
  }

  lemma {:induction false} LogOkFront(stored: seq<Stored>)
    requires LogOk(stored) && stored != []
    ensures LogOk(stored[..|stored| - 1]) && !HasStored(stored[..|stored| - 1], stored[|stored| - 1].command.id)
  {
  }

  lemma {:induction false} RejectedStep(stored: seq<Stored>)
    requires stored != []
    ensures var s := stored[|stored| - 1];
      RejectedOf(stored) ==
        RejectedOf(stored[..|stored| - 1]) + (if s.status.Rejected? then {Conflict(s.command, s.status.reason)} else {})
  {
  }

  lemma {:induction false} MarkedStep(stored: seq<Stored>, id: Id, status: CommandStatus)
    requires stored != []
    ensures var s, m := stored[|stored| - 1], Marked(stored, id, status);
      && m[..|m| - 1] == Marked(stored[..|stored| - 1], id, status)
      && m[|m| - 1] == if s.command.id == id then s.(status := status) else s
  {
  }

  /** Marking a pending command rejected adds its one conflict; marking it synced adds none. */
  lemma {:induction false} RejectedAfterMark(stored: seq<Stored>, c: Command, status: CommandStatus)
    requires LogOk(stored) && IsPending(stored, c) && status != Pending
    ensures RejectedOf(Marked(stored, c.id, status)) ==
      RejectedOf(stored) + (if status.Rejected? then {Conflict(c, status.reason)} else {})
  {
    hide LogOk, Marked, RejectedOf, HasStored;
    var front, s := stored[..|stored| - 1], stored[|stored| - 1];
    LogOkFront(stored);
    MarkedStep(stored, c.id, status);
    RejectedStep(stored);
    RejectedStep(Marked(stored, c.id, status));
    if s == Stored(c, Pending) {
      MarkedAbsent(front, c.id, status);
    } else {
      PendingIsStored(front, c);
      RejectedAfterMark(front, c, status);
    }
  }

  lemma {:induction false} RejectedIsStored(stored: seq<Stored>, k: Conflict)
    requires k in RejectedOf(stored)
    ensures HasStored(stored, k.command.id)
  {
    if k in RejectedOf(stored[..|stored| - 1]) {
      RejectedIsStored(stored[..|stored| - 1], k);
    }
  }

  /** A pending command has no conflict record yet. */
  lemma {:induction false} PendingHasNoConflict(stored: seq<Stored>, c: Command, k: Conflict)
    requires LogOk(stored) && IsPending(stored, c) && k in RejectedOf(stored)
    ensures k.command.id != c.id
  {
    hide WellShaped;
    var front, s := stored[..|stored| - 1], stored[|stored| - 1];
    if s == Stored(c, Pending) {
      RejectedIsStored(front, k);
    } else {
      PendingIsStored(front, c);
      if k in RejectedOf(front) {
        PendingHasNoConflict(front, c, k);
      }
    }
  }

  lemma {:induction false} OthersStayPending(stored: seq<Stored>, id: Id, status: CommandStatus, c: Command)
    requires IsPending(stored, c) && c.id != id
    ensures IsPending(Marked(stored, id, status), c)
  {
    var front := stored[..|stored| - 1];
    assert Marked(stored, id, status)[..|front|] == Marked(front, id, status);
    if stored[|stored| - 1] != Stored(c, Pending) {
      OthersStayPending(front, id, status, c);
    }
  }

  /** Settling keeps log, overlay and conflict records in agreement, and takes at most an orphan of the same id away. */
  lemma {:induction false} SettledAgrees(d: Device, c: Command, status: PushStatus)
    requires LogAgrees(d) && IsPending(d.stored, c)
    ensures LogAgrees(Settled(d, c, status)) && OrphansOf(Settled(d, c, status)) == Without(OrphansOf(d), c.id)
  {
    hide WellShaped, LogOk, OverlayOf, OverlayAgrees, Part, Without;
    var mark := MarkOf(status);
    MarkedLogOk(d.stored, c.id, mark);
    SettleAgrees(d.stored, d.mirror.overlay, c.id, mark);
    RejectedAfterMark(d.stored, c, mark);
    if status.AckRejected? {
      var k := Conflict(c, ReasonOf(status));
      assert (d.conflicts + [k])[..|d.conflicts|] == d.conflicts;
      forall j | j in ConflictSet(d.conflicts) ensures j.command.id != c.id {
        PendingHasNoConflict(d.stored, c, j);
      }
    }
  }

  // ---------------------------------------------------------------- settling a batch

  /** No id twice. */
  predicate DistinctCommands(batch: seq<Command>) {
    batch == [] || (DistinctCommands(batch[..|batch| - 1]) && !HasCommand(batch[..|batch| - 1], batch[|batch| - 1].id))
  }

  predicate HasCommand(batch: seq<Command>, id: Id) {
    batch != [] && (batch[|batch| - 1].id == id || HasCommand(batch[..|batch| - 1], id))
  }

  lemma {:induction false} HasCommandAt(batch: seq<Command>, i: nat, id: Id)
    requires i < |batch| && !HasCommand(batch, id)
    ensures batch[i].id != id
  {
    if i < |batch| - 1 {
      HasCommandAt(batch[..|batch| - 1], i, id);
    }
  }

  lemma {:induction false} DistinctCommandsAt(batch: seq<Command>, i: nat, j: nat)
    requires DistinctCommands(batch) && i < j < |batch|
    ensures batch[i].id != batch[j].id
  {
    if j == |batch| - 1 {
      HasCommandAt(batch[..j], i, batch[j].id);
    } else {
      DistinctCommandsAt(batch[..|batch| - 1], i, j);
    }
  }

  lemma {:induction false} PendingCommandsStored(stored: seq<Stored>, id: Id)
    requires !HasStored(stored, id)
    ensures !HasCommand(PendingCommands(stored), id)
  {
    if stored != [] {
      var front, s := PendingCommands(stored[..|stored| - 1]), stored[|stored| - 1];
      PendingCommandsStored(stored[..|stored| - 1], id);
      assert (front + [s.command])[..|front|] == front;
    }
  }

  lemma {:induction false} PendingCommandsDistinct(stored: seq<Stored>)
    requires LogOk(stored)
    ensures DistinctCommands(PendingCommands(stored))
  {
    hide WellShaped;
    if stored != [] {
      var front, s := PendingCommands(stored[..|stored| - 1]), stored[|stored| - 1];
      PendingCommandsDistinct(stored[..|stored| - 1]);
      PendingCommandsStored(stored[..|stored| - 1], s.command.id);
      assert (front + [s.command])[..|front|] == front;
    }
  }

  lemma {:induction false} PendingCommandsPending(stored: seq<Stored>, k: nat)
    requires k < |PendingCommands(stored)|
    ensures IsPending(stored, PendingCommands(stored)[k])
  {
    var front, s := stored[..|stored| - 1], stored[|stored| - 1];
    if k < |PendingCommands(front)| {
      PendingCommandsPending(front, k);
    }
  }

  lemma {:induction false} StillPending(d: Device, batch: seq<Command>, results: seq<PushResult>, n: nat, k: nat)
    requires n <= k < |batch| && DistinctCommands(batch) && IsPending(d.stored, batch[k])
    ensures IsPending(Pushed(d, batch, results, n).stored, batch[k])
  {
    if n > 0 {
      StillPending(d, batch, results, n - 1, k);
      DistinctCommandsAt(batch, n - 1, k);
      var r := ResultFor(results, batch[n - 1].id);
      if r.Some? {
        OthersStayPending(Pushed(d, batch, results, n - 1).stored, batch[n - 1].id, MarkOf(r.value), batch[k]);
      }
    }
  }

  /** The orphans left after the first `n` commands of the batch were answered. */
  function OrphansAfter(orphans: seq<OverlayEntry>, batch: seq<Command>, results: seq<PushResult>, n: nat): seq<OverlayEntry>
    requires n <= |batch|
  {
    if n == 0 then orphans
    else
      var before := OrphansAfter(orphans, batch, results, n - 1);
      if ResultFor(results, batch[n - 1].id).None? then before else Without(before, batch[n - 1].id)
  }

  /** A push keeps log, overlay and conflicts in agreement and does not touch the pulled history. */
  lemma {:induction false} PushAgrees(d: Device, results: seq<PushResult>, n: nat)
    requires LogAgrees(d) && n <= |PendingCommands(d.stored)|
    ensures var batch := PendingCommands(d.stored);
      var after := Pushed(d, batch, results, n);
      && LogAgrees(after) && after.mirror.history == d.mirror.history && after.cursor == d.cursor
      && after.mirror.seeds == d.mirror.seeds
      && OrphansOf(after) == OrphansAfter(OrphansOf(d), batch, results, n)
  {
    hide LogAgrees, PendingCommands, Marked, Without, MarkOf, ResultFor, DistinctCommands, IsPending, OrphansOf;
    var batch := PendingCommands(d.stored);
    if n > 0 {
      PushAgrees(d, results, n - 1);
      BatchIsDistinct(d);
      PendingCommandsPending(d.stored, n - 1);
      StillPending(d, batch, results, n - 1, n - 1);
      var r := ResultFor(results, batch[n - 1].id);
      if r.Some? {
        SettledAgrees(Pushed(d, batch, results, n - 1), batch[n - 1], r.value);
      }
    }
  }

  lemma BatchIsDistinct(d: Device)
    requires LogAgrees(d)
    ensures DistinctCommands(PendingCommands(d.stored))
  {
    PendingCommandsDistinct(d.stored);
  }

  // ---------------------------------------------------------------- what is left pending

  /** The commands of the batch, up to `n`, that got no result. */
  function Unanswered(batch: seq<Command>, results: seq<PushResult>, n: nat): seq<Command>
    requires n <= |batch|
  {
    if n == 0 then []
    else if ResultFor(results, batch[n - 1].id).None? then Unanswered(batch, results, n - 1) + [batch[n - 1]]
    else Unanswered(batch, results, n - 1)
  }

  function DropCommand(cs: seq<Command>, id: Id): seq<Command> {
    if cs == [] then []
    else
      var front := DropCommand(cs[..|cs| - 1], id);
      if cs[|cs| - 1].id == id then front else front + [cs[|cs| - 1]]
  }

  lemma {:induction false} DropAppend(a: seq<Command>, b: seq<Command>, id: Id)
    ensures DropCommand(a + b, id) == DropCommand(a, id) + DropCommand(b, id)
  {
    if b == [] {
      assert a + b == a;
    } else {
      DropAppend(a, b[..|b| - 1], id);
      assert (a + b)[..|a + b| - 1] == a + b[..|b| - 1];
    }
  }

  lemma {:induction false} DropAbsent(cs: seq<Command>, id: Id)
    requires !HasCommand(cs, id)
    ensures DropCommand(cs, id) == cs
  {
    if cs != [] {
      DropAbsent(cs[..|cs| - 1], id);
    }
  }

  lemma {:induction false} PendingAfterMark(stored: seq<Stored>, id: Id, status: CommandStatus)
    requires status != Pending
    ensures PendingCommands(Marked(stored, id, status)) == DropCommand(PendingCommands(stored), id)
  {
    if stored != [] {
      var front, s := stored[..|stored| - 1], stored[|stored| - 1];
      PendingAfterMark(front, id, status);
      assert Marked(stored, id, status)[..|front|] == Marked(front, id, status);
      assert (PendingCommands(front) + [s.command])[..|PendingCommands(front)|] == PendingCommands(front);
    }
  }

  lemma {:induction false} SliceLacks(batch: seq<Command>, lo: nat, hi: nat, id: Id)
    requires lo <= hi <= |batch|
    requires forall i :: lo <= i < hi ==> batch[i].id != id
    ensures !HasCommand(batch[lo..hi], id)
    decreases hi - lo
  {
    if lo < hi {
      SliceLacks(batch, lo, hi - 1, id);
      assert batch[lo..hi][..hi - 1 - lo] == batch[lo..hi - 1];
    }
  }

  lemma {:induction false} UnansweredLacks(batch: seq<Command>, results: seq<PushResult>, n: nat, id: Id)
    requires n <= |batch| && forall i :: 0 <= i < n ==> batch[i].id != id
    ensures !HasCommand(Unanswered(batch, results, n), id)
  {
    if n > 0 {
      UnansweredLacks(batch, results, n - 1, id);
      var front := Unanswered(batch, results, n - 1);
      assert (front + [batch[n - 1]])[..|front|] == front;
    }
  }

  lemma {:induction false} DropFromMiddle(a: seq<Command>, c: Command, b: seq<Command>)
    requires !HasCommand(a, c.id) && !HasCommand(b, c.id)
    ensures DropCommand(a + ([c] + b), c.id) == a + b
  {
    DropOne(c);
    hide DropCommand;
    DropAppend(a, [c] + b, c.id);
    DropAppend([c], b, c.id);
    DropAbsent(a, c.id);
    DropAbsent(b, c.id);
  }

  lemma DropOne(c: Command)
    ensures DropCommand([c], c.id) == []
  {
    assert [c][..0] == [];
  }

  lemma {:induction false} OthersDiffer(batch: seq<Command>, k: nat)
    requires DistinctCommands(batch) && k < |batch|
    ensures forall i :: 0 <= i < |batch| && i != k ==> batch[i].id != batch[k].id
  {
    forall i | 0 <= i < |batch| && i != k ensures batch[i].id != batch[k].id {
      if i < k { DistinctCommandsAt(batch, i, k); } else { DistinctCommandsAt(batch, k, i); }
    }
  }

  lemma {:induction false} AnsweredLeaves(batch: seq<Command>, results: seq<PushResult>, k: nat)
    requires DistinctCommands(batch) && k < |batch|
    ensures DropCommand(Unanswered(batch, results, k) + ([batch[k]] + batch[k + 1..]), batch[k].id)
         == Unanswered(batch, results, k) + batch[k + 1..]
  {
    OthersDiffer(batch, k);
    UnansweredLacks(batch, results, k, batch[k].id);
    SliceLacks(batch, k + 1, |batch|, batch[k].id);
    assert batch[k + 1..|batch|] == batch[k + 1..];
    DropFromMiddle(Unanswered(batch, results, k), batch[k], batch[k + 1..]);
  }

  lemma {:induction false} PendingAfterPush(d: Device, results: seq<PushResult>, n: nat)
    requires DistinctCommands(PendingCommands(d.stored)) && n <= |PendingCommands(d.stored)|
    ensures var batch := PendingCommands(d.stored);
      PendingCommands(Pushed(d, batch, results, n).stored) == Unanswered(batch, results, n) + batch[n..]
  {
    hide DistinctCommands, DropCommand, ResultFor, PendingCommands, Marked, Without, MarkOf;
    var batch := PendingCommands(d.stored);
    if n > 0 {
      var c := batch[n - 1];
      PendingAfterPush(d, results, n - 1);
      assert batch[n - 1..] == [c] + batch[n..];
      var un := Unanswered(batch, results, n - 1);
      var r := ResultFor(results, c.id);
      if r.None? {
        assert un + ([c] + batch[n..]) == un + [c] + batch[n..];
      } else {
        PendingAfterMark(Pushed(d, batch, results, n - 1).stored, c.id, MarkOf(r.value));
        AnsweredLeaves(batch, results, n - 1);
      }
    }
  }

  /** After a push exactly the commands without a result are still pending, in their old order. */
  lemma {:induction false} PushLeavesUnanswered(d: Device, results: seq<PushResult>)
    requires LogAgrees(d)
    ensures var batch := PendingCommands(d.stored);
      PendingCommands(Pushed(d, batch, results, |batch|).stored) == Unanswered(batch, results, |batch|)
  {
    PendingCommandsDistinct(d.stored);
    PendingAfterPush(d, results, |PendingCommands(d.stored)|);
  }

  // ---------------------------------------------------------------- pulling

  lemma {:induction false} AscendingAt(feed: seq<Posted>, i: nat, j: nat)
    requires Ascending(feed) && i < j < |feed|
    ensures feed[i].seqNo < feed[j].seqNo
  {
    if j == |feed| - 1 {
      if i < j - 1 {
        AscendingAt(feed[..j], i, j - 1);
      }
    } else {
      AscendingAt(feed[..|feed| - 1], i, j);
    }
  }

  lemma {:induction false} AfterNone(a: seq<Posted>, b: seq<Posted>, cursor: int)
    requires forall i :: 0 <= i < |a| ==> a[i].seqNo <= cursor
    ensures After(a + b, cursor) == After(b, cursor)
    decreases |a|
  {
    if a == [] {
      assert a + b == b;
    } else {
      AfterNone(a[1..], b, cursor);
      assert (a + b)[1..] == a[1..] + b;
    }
  }

  lemma {:induction false} AfterAll(b: seq<Posted>, cursor: int)
    requires forall i :: 0 <= i < |b| ==> b[i].seqNo > cursor
    ensures After(b, cursor) == b
  {
    if b != [] {
      AfterAll(b[1..], cursor);
    }
  }

  lemma CursorDivides(feed: seq<Posted>, m: nat)
    requires FeedOk(feed) && m <= |feed|
    ensures forall i :: 0 <= i < m ==> feed[i].seqNo <= CursorAt(feed, m)
    ensures forall i :: m <= i < |feed| ==> feed[i].seqNo > CursorAt(feed, m)
  {
    hide WellShaped, DistinctIds, Ascending;
    var cursor := CursorAt(feed, m);
    forall i | 0 <= i < m ensures feed[i].seqNo <= cursor {
      if i < m - 1 { AscendingAt(feed, i, m - 1); }
    }
    forall i | m <= i < |feed| ensures feed[i].seqNo > cursor {
      if m > 0 { AscendingAt(feed, m - 1, i); } else if i > 0 { AscendingAt(feed, 0, i); }
    }
  }

  /** The feed after a cursor that stands behind the first `m` items is the rest of the feed. */
  lemma {:induction false} AfterIsSuffix(feed: seq<Posted>, m: nat)
    requires FeedOk(feed) && m <= |feed|
    ensures After(feed, CursorAt(feed, m)) == feed[m..]
  {
    hide FeedOk, CursorAt, After;
    CursorDivides(feed, m);
    var front, back := feed[..m], feed[m..];
    assert feed == front + back;
    AfterNone(front, back, CursorAt(feed, m));
    AfterAll(back, CursorAt(feed, m));
  }

  lemma InputsPrefix(feed: seq<Posted>, n: nat)
    requires n <= |feed|
    ensures Inputs(feed[..n]) == Inputs(feed)[..n]
  {
  }

  lemma {:induction false} IdsOfPrefix(h: seq<Movement>, n: nat)
    requires n <= |h|
    ensures Ids(h[..n]) <= Ids(h)
    ensures DistinctIds(h) ==> DistinctIds(h[..n]) && (n < |h| ==> h[n].id !in Ids(h[..n]))
  {
    if n < |h| - 1 {
      IdsOfPrefix(h[..|h| - 1], n);
      assert h[..|h| - 1][..n] == h[..n];
    } else if n == |h| {
      assert h[..n] == h;
    }
  }

  /** Ingesting a slice of the feed extends the held prefix without a gap and never twice. */
  lemma {:induction false} IngestSlice(feed: seq<Posted>, n: nat, a: nat, b: nat)
    requires DistinctIds(Inputs(feed)) && a <= n <= |feed| && a <= b <= |feed|
    ensures Ingested(feed[..n], feed[a..b]) == feed[..if n < b then b else n]
    decreases b - a
  {
    if a < b {
      var items := feed[a..b];
      assert items[0] == feed[a] && items[1..] == feed[a + 1..b];
      InputsPrefix(feed, n);
      if a < n {
        IdAt(Inputs(feed[..n]), a);
        IngestSlice(feed, n, a + 1, b);
      } else {
        IdsOfPrefix(Inputs(feed), n);
        assert feed[..n] + [feed[n]] == feed[..n + 1];
        IngestSlice(feed, n + 1, a + 1, b);
      }
    }
  }

  lemma PageIsSlice(feed: seq<Posted>, m: nat, limit: nat)
    requires FeedOk(feed) && m <= |feed|
    ensures Page(feed, CursorAt(feed, m), limit) == feed[m..if m + limit < |feed| then m + limit else |feed|]
  {
    hide FeedOk, CursorAt, After;
    AfterIsSuffix(feed, m);
  }

  /** One answered page moves the cursor past it and leaves no gap in the held history. */
  lemma {:induction false} PageKeepsInStep(history: seq<Posted>, cursor: int, feed: seq<Posted>, limit: nat, n: nat, m: nat)
    requires FeedOk(feed) && limit > 0 && InStepAt(history, cursor, feed, n, m)
    ensures var page := Page(feed, cursor, limit);
      var b := m + |page|;
      && b <= |feed| && |page| <= limit
      && (|page| < limit ==> b == |feed|)
      && (page != [] ==> InStepAt(Ingested(history, page), page[|page| - 1].seqNo, feed, if n < b then b else n, b))
  {
    hide Page, Ingested, FeedOk;
    PageIsSlice(feed, m, limit);
    var page := Page(feed, cursor, limit);
    assert DistinctIds(Inputs(feed)) by { FeedIsDistinct(feed); }
    IngestSlice(feed, n, m, m + |page|);
  }

  lemma FeedIsDistinct(feed: seq<Posted>)
    requires FeedOk(feed)
    ensures DistinctIds(Inputs(feed))
  {
  }

  /**
   * A pull from a device in step keeps it in step, counts each answered item, and when it
   * completes the device holds the whole feed with its cursor at the end.
   */
  lemma {:induction false} PullKeepsInStep(p: Pull, feed: seq<Posted>, limit: nat, pages: nat, n: nat, m: nat)
    returns (n': nat, m': nat)
    requires FeedOk(feed) && limit > 0 && InStepAt(p.history, p.cursor, feed, n, m)
    ensures var q := Pulled(p, feed, limit, pages);
      && n <= n' && m <= m' && InStepAt(q.history, q.cursor, feed, n', m')
      && q.pulled == p.pulled + (m' - m)
      && (q.completed ==> n' == m' == |feed|)
      && (pages > |feed| - m ==> q.completed)
    decreases pages
  {
    hide Page, Ingested, FeedOk;
    n', m' := n, m;
    if pages > 0 {
      PageKeepsInStep(p.history, p.cursor, feed, limit, n, m);
      var page := Page(feed, p.cursor, limit);
      if page != [] {
        m' := m + |page|;
        n' := if n < m' then m' else n;
        if |page| == limit {
          var next := Pull(Ingested(p.history, page), page[|page| - 1].seqNo, p.pulled + |page|, true);
          n', m' := PullKeepsInStep(next, feed, limit, pages - 1, n', m');
        }
      }
    }
  }

  // ---------------------------------------------------------------- a sync

  /** The mirror is the replay of the feed and of what the overlay adds to it. */
  ghost predicate Shows(d: Device, feed: seq<Posted>) {
    var shown := Inputs(feed) + Unseen(Flatten(d.mirror.overlay), Ids(Inputs(feed)));
    && d.mirror.history == feed
    && d.mirror.posted == shown
    && d.mirror.states == UnitReplay(d.mirror.seeds, SeedStates(d.mirror.seeds), shown)
  }

  /** What the mirror should show after a sync: server history, then exactly the pending commands it lacks. */
  ghost predicate Converged(d: Device, feed: seq<Posted>) {
    var shown := Inputs(feed) + Unseen(Flatten(OverlayOf(d.stored)), Ids(Inputs(feed)));
    && d.mirror.history == feed
    && d.mirror.posted == shown
    && d.mirror.states == UnitReplay(d.mirror.seeds, SeedStates(d.mirror.seeds), shown)
  }

  /** A rebuilt mirror has converged exactly when every orphan's lines are in the feed. */
  lemma ConvergedIff(d: Device, feed: seq<Posted>)
    requires LogAgrees(d) && Shows(d, feed)
    ensures Converged(d, feed) <==> Landed(OrphansOf(d), Ids(Inputs(feed)))
  {
    hide LogOk, EntriesOk, Part, Unseen, Flatten, OverlayOf, Ids, Inputs, UnitReplay, Landed, ConflictsMatch;
    var known := Ids(Inputs(feed));
    ShowsPendingIff(d.stored, d.mirror.overlay, known);
    SameTail(Inputs(feed), Unseen(Flatten(d.mirror.overlay), known), Unseen(Flatten(OverlayOf(d.stored)), known));
  }

  lemma SameTail<T>(a: seq<T>, b: seq<T>, c: seq<T>)
    ensures a + b == a + c <==> b == c
  {
    assert (a + b)[|a|..] == b && (a + c)[|a|..] == c;
  }

  /** Rebuilding a mirror that holds the feed, or a prefix of it, changes no history and makes it show the feed. */
  lemma RebuildShows(d: Device, feed: seq<Posted>, n: nat)
    requires LogAgrees(d) && FeedOk(feed) && n <= |feed| && d.mirror.history == feed[..n]
    ensures var after := d.(mirror := Rebuilt(d.mirror));
      && LogAgrees(after) && OrphansOf(after) == OrphansOf(d) && after.mirror.history == d.mirror.history
      && Shows(after, feed[..n])
  {
    hide LogOk, OverlayAgrees, ConflictsMatch, FeedOk, Flatten, Unseen, Ids, Inputs, Part, SortBySeq, UnitReplay;
    PrefixAscends(feed, n);
    SortOfAscending(d.mirror.history);
  }

  /**
   * A sync keeps the replica invariants whether or not the connection drops during the pull, and
   * when it completes it converges exactly when every orphan's lines are in the feed.
   */
  lemma {:induction false} SyncKeepsDeviceOk(d: Device, results: seq<PushResult>, feed: seq<Posted>, limit: nat, pages: nat)
    requires DeviceOk(d, feed) && FeedOk(feed) && limit > 0
    ensures var after := SyncedDevice(d, results, feed, limit, pages);
      var batch := PendingCommands(d.stored);
      && DeviceOk(after, feed)
      && OrphansOf(after) == OrphansAfter(OrphansOf(d), batch, results, |batch|)
      && (SyncCompletes(d, feed, limit, pages) ==>
            Shows(after, feed) && (Converged(after, feed) <==> Landed(OrphansOf(after), Ids(Inputs(feed)))))
    ensures pages > |feed| ==> SyncCompletes(d, feed, limit, pages)
  {
    hide LogAgrees, FeedOk, Flatten, OverlayOf, Unseen, Ids, OrphansOf, OrphansAfter, Rebuilt, Shows, Converged, Landed, Pushed;
    var batch := PendingCommands(d.stored);
    PushAgrees(d, results, |batch|);
    var settled := Pushed(d, batch, results, |batch|);
    var m :| InStepAt(d.mirror.history, d.cursor, feed, |d.mirror.history|, m);
    var p0 := Pull(settled.mirror.history, settled.cursor, 0, true);
    var n', m' := PullKeepsInStep(p0, feed, limit, pages, |d.mirror.history|, m);
    var p := Pulled(p0, feed, limit, pages);
    var held := settled.(mirror := settled.mirror.(history := p.history), cursor := p.cursor);
    SameLog(settled, held);
    var after := SyncedDevice(d, results, feed, limit, pages);
    if p.completed {
      RebuildShows(held, feed, n');
      assert feed[..n'] == feed;
      ConvergedIff(after, feed);
    }
    assert InStepAt(after.mirror.history, after.cursor, feed, n', m');
  }

  lemma SameLog(a: Device, b: Device)
    requires LogAgrees(a)
    requires b.stored == a.stored && b.mirror.overlay == a.mirror.overlay && b.conflicts == a.conflicts
    ensures LogAgrees(b) && OrphansOf(b) == OrphansOf(a)
  {
  }

  lemma {:induction false} PrefixAscendsOf(feed: seq<Posted>, n: nat)
    requires Ascending(feed) && n <= |feed|
    ensures Ascending(feed[..n])
  {
    if n < |feed| {
      PrefixAscendsOf(feed[..|feed| - 1], n);
      assert feed[..|feed| - 1][..n] == feed[..n];
    } else {
      assert feed[..n] == feed;
    }
  }

  lemma PrefixAscends(feed: seq<Posted>, n: nat)
    requires FeedOk(feed) && n <= |feed|
    ensures Ascending(feed[..n])
  {
    PrefixAscendsOf(feed, n);
  }

  // ---------------------------------------------------------------- what convergence means

  /** No movement is counted twice, whether it came by the feed or is still in the overlay. */
  lemma EachMovementCountsOnce(d: Device, feed: seq<Posted>)
    requires DeviceOk(d, feed) && FeedOk(feed) && Shows(d, feed)
    ensures DistinctIds(d.mirror.posted)
  {
    hide WellShaped, EntriesOk, Part, Flatten, OverlayOf, LogOk;
    var known, fl := Ids(Inputs(feed)), Flatten(d.mirror.overlay);
    EntriesReplayable(d.stored, d.mirror.overlay);
    UnseenDistinct(fl, known);
    UnseenIds(fl, known);
    DistinctAppend(Inputs(feed), Unseen(fl, known));
  }

  /** The level of every bucket is the server's level plus what pending commands still have to land. */
  lemma {:induction false} ConvergedLevels(d: Device, feed: seq<Posted>, b: Bucket)
    requires Converged(d, feed)
    ensures Fold(d.mirror.posted, b) ==
      Fold(Inputs(feed), b) + Fold(Unseen(Flatten(OverlayOf(d.stored)), Ids(Inputs(feed))), b)
  {
    FoldAppend(Inputs(feed), Unseen(Flatten(OverlayOf(d.stored)), Ids(Inputs(feed))), b);
  }

  lemma {:induction false} NothingPendingNoOverlay(stored: seq<Stored>)
    requires PendingCommands(stored) == []
    ensures OverlayOf(stored) == []
  {
    if stored != [] {
      NothingPendingNoOverlay(stored[..|stored| - 1]);
    }
  }

  /** With nothing left to push the mirror is the server's ledger. */
  lemma DrainedMirrorIsServer(d: Device, feed: seq<Posted>)
    requires Converged(d, feed) && PendingCommands(d.stored) == []
    ensures d.mirror.posted == Inputs(feed)
    ensures d.mirror.states == UnitReplay(d.mirror.seeds, SeedStates(d.mirror.seeds), Inputs(feed))
  {
    NothingPendingNoOverlay(d.stored);
    assert Inputs(feed) + [] == Inputs(feed);
  }

  /** A server that acknowledges a command has its lines in the feed. */
  ghost predicate AcksHonest(stored: seq<Stored>, feed: seq<Posted>) {
    forall i :: 0 <= i < |stored| && stored[i].status == Synced ==>
      LineIds(stored[i].command.id, LineCount(stored[i].command)) <= Ids(Inputs(feed))
  }

  /** No lost sale: every line of every command not rejected is in the mirror's ledger, orphans or not. */
  lemma NoSaleIsLost(d: Device, feed: seq<Posted>, i: nat)
    requires LogAgrees(d) && Shows(d, feed) && AcksHonest(d.stored, feed)
    requires i < |d.stored| && !d.stored[i].status.Rejected?
    ensures LineIds(d.stored[i].command.id, LineCount(d.stored[i].command)) <= Ids(d.mirror.posted)
  {
    hide Flatten, Unseen, Part, EntriesOk, OverlayOf, LogOk, LineIds;
    var known, fl := Ids(Inputs(feed)), Flatten(d.mirror.overlay);
    IdsAppend(Inputs(feed), Unseen(fl, known));
    UnseenIds(fl, known);
    if d.stored[i].status == Pending {
      FlattenCovers(d.stored, i);
      PartIds(d.stored, d.mirror.overlay, true);
    }
  }

  lemma {:induction false} PartIds(stored: seq<Stored>, overlay: seq<OverlayEntry>, pending: bool)
    ensures Ids(Flatten(Part(stored, overlay, pending))) <= Ids(Flatten(overlay))
  {
    hide Ids;
    forall id | id in Ids(Flatten(Part(stored, overlay, pending))) ensures id in Ids(Flatten(overlay)) {
      var k := FlattenEntry(Part(stored, overlay, pending), id);
      var j := PartSource(stored, overlay, pending, k);
      FlattenHas(overlay, j);
    }
  }

  /** A rejected command the server never posted leaves nothing in the mirror. */
  lemma RejectedSaleLeavesNothing(d: Device, feed: seq<Posted>, i: nat)
    requires LogOk(d.stored) && Converged(d, feed)
    requires i < |d.stored| && d.stored[i].status.Rejected?
    requires LineIds(d.stored[i].command.id, LineCount(d.stored[i].command)) !! Ids(Inputs(feed))
    ensures LineIds(d.stored[i].command.id, LineCount(d.stored[i].command)) !! Ids(d.mirror.posted)
  {
    var c := d.stored[i].command;
    var known, fl := Ids(Inputs(feed)), Flatten(OverlayOf(d.stored));
    IdsAppend(Inputs(feed), Unseen(fl, known));
    UnseenIds(fl, known);
    forall id | id in LineIds(c.id, LineCount(c)) && id in Ids(fl) ensures false {
      var j := FlattenSource(d.stored, id);
      StoredIdsDiffer(d.stored, i, j);
      LinesOfDifferentCommands(c.id, LineCount(c), d.stored[j].command.id, LineCount(d.stored[j].command));
    }
  }

  lemma {:induction false} StoredIdsDiffer(stored: seq<Stored>, i: nat, j: nat)
    requires LogOk(stored) && i < |stored| && j < |stored| && i != j
    ensures stored[i].command.id != stored[j].command.id
  {
    hide WellShaped;
    var last := |stored| - 1;
    if i == last {
      HasStoredAt(stored[..last], j, stored[last].command.id);
    } else if j == last {
      HasStoredAt(stored[..last], i, stored[last].command.id);
    } else {
      StoredIdsDiffer(stored[..last], i, j);
    }
  }

  // ---------------------------------------------------------------- every run

  /**
   * What can happen to a device, in any order: whole syncs, or the steps of one with appends in
   * between. The feed a step names is the server's history at that time.
   */
  datatype Event =
    | Append(input: Command)
    | Settle(command: Command, status: PushStatus)
    | PullPage(feed: seq<Posted>, limit: nat)
    | Rebuild
    | Sync(results: seq<PushResult>, feed: seq<Posted>, limit: nat, pages: nat)
    | CursorRestored(items: nat)

  function PagePulled(d: Device, feed: seq<Posted>, limit: nat): Device {
    var page := Page(feed, d.cursor, limit);
    if page == [] then d
    else d.(mirror := d.mirror.(history := Ingested(d.mirror.history, page)), cursor := page[|page| - 1].seqNo)
  }

  function StepDevice(d: Device, e: Event): Device {
    match e
    case Append(input) => Appended(d, input).0
    case Settle(c, status) => if IsPending(d.stored, c) then Settled(d, c, status) else d
    case PullPage(feed, limit) => PagePulled(d, feed, limit)
    case Rebuild => d.(mirror := Rebuilt(d.mirror))
    case Sync(results, feed, limit, pages) => SyncedDevice(d, results, feed, limit, pages)
    case CursorRestored(m) =>
      if m <= |d.mirror.history| then d.(cursor := CursorAt(d.mirror.history, m)) else d
  }

  function FeedAfter(feed: seq<Posted>, e: Event): seq<Posted> {
    if e.Sync? || e.PullPage? then e.feed else feed
  }

  function RunDevice(d: Device, es: seq<Event>): Device {
    if es == [] then d else StepDevice(RunDevice(d, es[..|es| - 1]), es[|es| - 1])
  }

  function RunFeed(feed: seq<Posted>, es: seq<Event>): seq<Posted> {
    if es == [] then feed else FeedAfter(RunFeed(feed, es[..|es| - 1]), es[|es| - 1])
  }

  /** The server's feed only grows, well-shaped and numbered upwards, and pages have a size. Nothing is asked of appends. */
  ghost predicate ServerOk(feed: seq<Posted>, e: Event) {
    e.Sync? || e.PullPage? ==> e.limit > 0 && FeedOk(e.feed) && Grows(feed, e.feed)
  }

  ghost predicate ServerRun(feed: seq<Posted>, es: seq<Event>) {
    es == [] || (
      var front := es[..|es| - 1];
      ServerRun(feed, front) && ServerOk(RunFeed(feed, front), es[|es| - 1]))
  }

  function NewDevice(seeds: map<Id, Unit>, imeis: map<Id, Id>): Device {
    Device([], Mirror([], [], [], seeds, SeedStates(seeds), imeis), 0, [])
  }

  lemma PagePulledKeeps(d: Device, feed: seq<Posted>, limit: nat)
    requires DeviceOk(d, feed) && FeedOk(feed) && limit > 0
    ensures DeviceOk(PagePulled(d, feed, limit), feed) && OrphansOf(PagePulled(d, feed, limit)) == OrphansOf(d)
  {
    hide LogAgrees, FeedOk, Page, Ingested, OrphansOf;
    var n := |d.mirror.history|;
    var m: nat :| InStepAt(d.mirror.history, d.cursor, feed, n, m);
    PageKeepsInStep(d.mirror.history, d.cursor, feed, limit, n, m);
    var after := PagePulled(d, feed, limit);
    SameLog(d, after);
    var b := m + |Page(feed, d.cursor, limit)|;
    if after != d {
      assert InStepAt(after.mirror.history, after.cursor, feed, if n < b then b else n, b);
    }
  }

  /** What each event does to the orphans. */
  ghost function OrphansStep(d: Device, e: Event): seq<OverlayEntry> {
    match e
    case Append(input) => OrphansOf(d) + OrphanedBy(d, input)
    case Settle(c, _) => if IsPending(d.stored, c) then Without(OrphansOf(d), c.id) else OrphansOf(d)
    case Sync(results, _, _, _) =>
      OrphansAfter(OrphansOf(d), PendingCommands(d.stored), results, |PendingCommands(d.stored)|)
    case _ => OrphansOf(d)
  }

  /** Every event keeps the replica invariants; orphans come only from re-entering appends. */
  lemma StepKeepsDeviceOk(d: Device, feed: seq<Posted>, e: Event)
    requires DeviceOk(d, feed) && FeedOk(feed) && ServerOk(feed, e)
    ensures DeviceOk(StepDevice(d, e), FeedAfter(feed, e)) && FeedOk(FeedAfter(feed, e))
    ensures OrphansOf(StepDevice(d, e)) == OrphansStep(d, e)
  {
    hide LogAgrees, FeedOk, Appended, SyncedDevice, PagePulled, OrphansOf, OrphanedBy, Settled, IsPending, Rebuilt, PendingCommands,
         OrphansAfter, Without;
    match e
    case Append(input) =>
      AppendOrphans(d, input);
      AppendKeepsDeviceOk(d, feed, input);
    case Settle(c, status) =>
      if IsPending(d.stored, c) {
        SettleKeeps(d, feed, c, status);
      }
    case PullPage(later, limit) =>
      GrowthKeepsInStep(d, feed, later);
      PagePulledKeeps(d, later, limit);
    case Rebuild => RebuildKeeps(d, feed);
    case Sync(results, later, limit, pages) =>
      GrowthKeepsInStep(d, feed, later);
      SyncKeepsDeviceOk(d, results, later, limit, pages);
    case CursorRestored(m) => RestoreKeeps(d, feed, m);
  }

  lemma {:induction false} SettleKeeps(d: Device, feed: seq<Posted>, c: Command, status: PushStatus)
    requires DeviceOk(d, feed) && IsPending(d.stored, c)
    ensures DeviceOk(Settled(d, c, status), feed) && OrphansOf(Settled(d, c, status)) == Without(OrphansOf(d), c.id)
  {
    hide LogAgrees, IsPending, OrphansOf, Without, Marked;
    SettledAgrees(d, c, status);
    var m :| InStepAt(d.mirror.history, d.cursor, feed, |d.mirror.history|, m);
    var after := Settled(d, c, status);
    assert InStepAt(after.mirror.history, after.cursor, feed, |after.mirror.history|, m);
  }

  lemma RebuildKeeps(d: Device, feed: seq<Posted>)
    requires DeviceOk(d, feed) && FeedOk(feed)
    ensures var after := d.(mirror := Rebuilt(d.mirror));
      DeviceOk(after, feed) && OrphansOf(after) == OrphansOf(d) && Shows(after, d.mirror.history)
  {
    hide LogAgrees, FeedOk, OrphansOf, Rebuilt, Shows;
    var n := |d.mirror.history|;
    var m :| InStepAt(d.mirror.history, d.cursor, feed, n, m);
    RebuildShows(d, feed, n);
    var after := d.(mirror := Rebuilt(d.mirror));
    assert InStepAt(after.mirror.history, after.cursor, feed, n, m);
  }

  lemma RestoreKeeps(d: Device, feed: seq<Posted>, m: nat)
    requires DeviceOk(d, feed)
    ensures var after := StepDevice(d, CursorRestored(m)); DeviceOk(after, feed) && OrphansOf(after) == OrphansOf(d)
  {
    hide LogAgrees, OrphansOf;
    var n := |d.mirror.history|;
    if m <= n {
      var k :| InStepAt(d.mirror.history, d.cursor, feed, n, k);
      assert InStepAt(d.mirror.history, CursorAt(d.mirror.history, m), feed, n, m);
      SameLog(d, StepDevice(d, CursorRestored(m)));
    }
  }

  lemma NewDeviceOk(seeds: map<Id, Unit>, imeis: map<Id, Id>)
    ensures DeviceOk(NewDevice(seeds, imeis), []) && FeedOk([]) && OrphansOf(NewDevice(seeds, imeis)) == []
  {
    var d := NewDevice(seeds, imeis);
    assert InStepAt([], 0, [], 0, 0);
    assert InStepAt(d.mirror.history, d.cursor, [], |d.mirror.history|, 0);
  }

  /** Every run, whatever is appended and however syncs are interleaved or cut off, keeps the replica invariants. */
  lemma {:induction false} RunKeepsDeviceOk(seeds: map<Id, Unit>, imeis: map<Id, Id>, es: seq<Event>)
    requires ServerRun([], es)
    ensures DeviceOk(RunDevice(NewDevice(seeds, imeis), es), RunFeed([], es)) && FeedOk(RunFeed([], es))
  {
    hide DeviceOk, FeedOk, NewDevice, StepDevice, ServerOk, OrphansOf, OrphansStep;
    if es == [] {
      NewDeviceOk(seeds, imeis);
    } else {
      var front := es[..|es| - 1];
      RunKeepsDeviceOk(seeds, imeis, front);
      StepKeepsDeviceOk(RunDevice(NewDevice(seeds, imeis), front), RunFeed([], front), es[|es| - 1]);
    }
  }

  /**
   * Over every run, whatever was appended, acknowledged, lost, rejected, cut off or rolled back
   * before, a sync that completes leaves the mirror showing the server's history and what the
   * overlay adds, each movement counted once, one conflict record for each rejected command, and
   * only unanswered commands pending. That is the server's history followed by exactly the pending
   * commands if and only if every orphan's lines are in the feed.
   */
  lemma {:induction false} EverySyncConvergesIff(seeds: map<Id, Unit>, imeis: map<Id, Id>, es: seq<Event>,
                                                 results: seq<PushResult>, feed: seq<Posted>, limit: nat, pages: nat)
    requires ServerRun([], es + [Sync(results, feed, limit, pages)])
    requires pages > |feed|
    ensures var before := RunDevice(NewDevice(seeds, imeis), es);
      var d := RunDevice(NewDevice(seeds, imeis), es + [Sync(results, feed, limit, pages)]);
      var batch := PendingCommands(before.stored);
      && Shows(d, feed) && DistinctIds(d.mirror.posted)
      && ConflictsMatch(d.stored, d.conflicts)
      && PendingCommands(d.stored) == Unanswered(batch, results, |batch|)
      && OrphansOf(d) == OrphansAfter(OrphansOf(before), batch, results, |batch|)
      && (Converged(d, feed) <==> Landed(OrphansOf(d), Ids(Inputs(feed))))
  {
    hide FeedOk, SyncedDevice, Converged, Shows, DistinctIds, Landed, OrphansOf, OrphansAfter, Unanswered, NewDevice, LogOk,
         OverlayAgrees, ConflictsMatch, PendingCommands, Pushed, Pulled;
    var e := Sync(results, feed, limit, pages);
    assert (es + [e])[..|es|] == es;
    RunKeepsDeviceOk(seeds, imeis, es);
    var before := RunDevice(NewDevice(seeds, imeis), es);
    GrowthKeepsInStep(before, RunFeed([], es), feed);
    SyncKeepsDeviceOk(before, results, feed, limit, pages);
    EachMovementCountsOnce(SyncedDevice(before, results, feed, limit, pages), feed);
    SyncedLog(before, results, feed, limit, pages);
    PushLeavesUnanswered(before, results);
  }

  lemma {:induction false} SyncedLog(d: Device, results: seq<PushResult>, feed: seq<Posted>, limit: nat, pages: nat)
    ensures var batch := PendingCommands(d.stored);
      SyncedDevice(d, results, feed, limit, pages).stored == Pushed(d, batch, results, |batch|).stored
  {
  }

  /** The same when the steps of a sync are interleaved with appends: a rebuild over the whole feed converges under the same condition. */
  lemma {:induction false} EveryRebuildConvergesIff(seeds: map<Id, Unit>, imeis: map<Id, Id>, es: seq<Event>)
    requires ServerRun([], es)
    requires RunDevice(NewDevice(seeds, imeis), es).mirror.history == RunFeed([], es)
    ensures var feed := RunFeed([], es);
      var d := RunDevice(NewDevice(seeds, imeis), es + [Rebuild]);
      && Shows(d, feed) && DistinctIds(d.mirror.posted) && ConflictsMatch(d.stored, d.conflicts)
      && (Converged(d, feed) <==> Landed(OrphansOf(d), Ids(Inputs(feed))))
  {
    hide FeedOk, Converged, Shows, DistinctIds, Landed, OrphansOf, NewDevice, LogOk, OverlayAgrees, ConflictsMatch, Rebuilt;
    assert (es + [Rebuild])[..|es|] == es;
    RunKeepsDeviceOk(seeds, imeis, es);
    var before := RunDevice(NewDevice(seeds, imeis), es);
    RebuildKeeps(before, RunFeed([], es));
    var d := before.(mirror := Rebuilt(before.mirror));
    EachMovementCountsOnce(d, RunFeed([], es));
    ConvergedIff(d, RunFeed([], es));
  }

  /** No append of the run re-enters a command the log already has. */
  ghost predicate NeverReenters(d: Device, es: seq<Event>) {
    es == [] || (
      var front, e := es[..|es| - 1], es[|es| - 1];
      NeverReenters(d, front) && (e.Append? ==> !Reenters(RunDevice(d, front), e.input)))
  }

  lemma {:induction false} WithoutNothing(id: Id)
    ensures Without([], id) == []
  {
  }

  lemma {:induction false} NothingAfterPush(batch: seq<Command>, results: seq<PushResult>, n: nat)
    requires n <= |batch|
    ensures OrphansAfter([], batch, results, n) == []
  {
    if n > 0 {
      NothingAfterPush(batch, results, n - 1);
      WithoutNothing(batch[n - 1].id);
    }
  }

  lemma {:induction false} NoOrphans(seeds: map<Id, Unit>, imeis: map<Id, Id>, es: seq<Event>)
    requires ServerRun([], es) && NeverReenters(NewDevice(seeds, imeis), es)
    ensures OrphansOf(RunDevice(NewDevice(seeds, imeis), es)) == []
  {
    hide DeviceOk, FeedOk, NewDevice, StepDevice, ServerOk, OrphansOf, OrphansAfter, Reenters, PendingCommands, IsPending, Without;
    if es == [] {
      NewDeviceOk(seeds, imeis);
    } else {
      var front, e := es[..|es| - 1], es[|es| - 1];
      var d := RunDevice(NewDevice(seeds, imeis), front);
      NoOrphans(seeds, imeis, front);
      RunKeepsDeviceOk(seeds, imeis, front);
      StepKeepsDeviceOk(d, RunFeed([], front), e);
      if e.Sync? {
        NothingAfterPush(PendingCommands(d.stored), e.results, |PendingCommands(d.stored)|);
      }
      if e.Settle? {
        WithoutNothing(e.command.id);
      }
    }
  }

  /** Without re-entered commands every sync that completes converges. */
  lemma {:induction false} FreshRunsConverge(seeds: map<Id, Unit>, imeis: map<Id, Id>, es: seq<Event>,
                                             results: seq<PushResult>, feed: seq<Posted>, limit: nat, pages: nat)
    requires ServerRun([], es + [Sync(results, feed, limit, pages)]) && pages > |feed|
    requires NeverReenters(NewDevice(seeds, imeis), es)
    ensures Converged(RunDevice(NewDevice(seeds, imeis), es + [Sync(results, feed, limit, pages)]), feed)
  {
    hide Converged, Shows, DistinctIds, OrphansOf, NewDevice, ConflictsMatch, StepDevice, ServerOk, Reenters;
    var e := Sync(results, feed, limit, pages);
    assert (es + [e])[..|es|] == es;
    EverySyncConvergesIff(seeds, imeis, es, results, feed, limit, pages);
    assert NeverReenters(NewDevice(seeds, imeis), es + [e]);
    NoOrphans(seeds, imeis, es + [e]);
  }
}
