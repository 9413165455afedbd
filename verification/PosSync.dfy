/**
 * The device as a replica: what appends and syncs do to it, and what every run keeps.
 * A sync pushes pending commands, pulls the authoritative feed by cursor and rebuilds.
 */
module PosSync {
  import opened Common
  import opened Ledger
  import opened PosModel
  import opened PosOverlay

  // ---------------------------------------------------------------- push

  datatype PushStatus = AckApplied | AckDuplicate | AckRejected(reason: Option<string>)

  datatype PushResult = PushResult(command: Id, status: PushStatus)

  datatype Report = Report(pushed: nat, applied: nat, duplicates: nat, rejected: nat, pulled: nat, cursor: int)

  /** The result for a command: a Map built from the list keeps the last one. */
  function ResultFor(results: seq<PushResult>, id: Id): Option<PushStatus> {
    if results == [] then None
    else if results[|results| - 1].command == id then Some(results[|results| - 1].status)
    else ResultFor(results[..|results| - 1], id)
  }

  function ReasonOf(status: PushStatus): string
    requires status.AckRejected?
  {
    match status.reason case Some(r) => r case None => "rejected by server"
  }

  function MarkOf(status: PushStatus): (mark: CommandStatus)
    ensures mark != Pending && (mark.Rejected? <==> status.AckRejected?)
  {
    if status.AckRejected? then Rejected(ReasonOf(status)) else Synced
  }

  function Settled(d: Device, c: Command, status: PushStatus): Device {
    Device(Marked(d.stored, c.id, MarkOf(status)),
           d.mirror.(overlay := Without(d.mirror.overlay, c.id)), d.cursor,
           if status.AckRejected? then d.conflicts + [Conflict(c, ReasonOf(status))] else d.conflicts)
  }

  /** Settle the first `n` commands of the batch that have a result; the others stay pending. */
  function Pushed(d: Device, batch: seq<Command>, results: seq<PushResult>, n: nat): Device
    requires n <= |batch|
  {
    if n == 0 then d
    else
      var before := Pushed(d, batch, results, n - 1);
      match ResultFor(results, batch[n - 1].id)
      case None => before
      case Some(status) => Settled(before, batch[n - 1], status)
  }

  /** How many of the first `n` commands have a result accepted by the test. */
  function CountResults(batch: seq<Command>, results: seq<PushResult>, n: nat, test: PushStatus -> bool): (k: nat)
    requires n <= |batch|
    ensures k <= n
  {
    if n == 0 then 0
    else
      var r := ResultFor(results, batch[n - 1].id);
      CountResults(batch, results, n - 1, test) + (if r.Some? && test(r.value) then 1 else 0)
  }

  // ---------------------------------------------------------------- pull

  /** The feed after a cursor: `WHERE seq > $1 ORDER BY seq`. */
  function After(feed: seq<Posted>, cursor: int): seq<Posted> {
    if feed == [] then []
    else if feed[0].seqNo > cursor then [feed[0]] + After(feed[1..], cursor)
    else After(feed[1..], cursor)
  }

  function Page(feed: seq<Posted>, cursor: int, limit: nat): (page: seq<Posted>)
    ensures |page| <= limit
  {
    var rest := After(feed, cursor);
    if |rest| <= limit then rest else rest[..limit]
  }

  datatype Pull = Pull(history: seq<Posted>, cursor: int, pulled: nat, completed: bool)

  /** Page until an empty or short page; `pages` is how many answers arrive before the connection drops. */
  function Pulled(p: Pull, feed: seq<Posted>, limit: nat, pages: nat): Pull
    decreases pages
  {
    if pages == 0 then p.(completed := false)
    else
      var page := Page(feed, p.cursor, limit);
      if page == [] then p.(completed := true)
      else
        var next := Pull(Ingested(p.history, page), page[|page| - 1].seqNo, p.pulled + |page|, true);
        if |page| < limit then next else Pulled(next, feed, limit, pages - 1)
  }

  /** A whole sync. When the connection drops during the pull there is no rebuild. */
  function SyncedDevice(d: Device, results: seq<PushResult>, feed: seq<Posted>, limit: nat, pages: nat): Device {
    var batch := PendingCommands(d.stored);
    var settled := Pushed(d, batch, results, |batch|);
    var p := Pulled(Pull(settled.mirror.history, settled.cursor, 0, true), feed, limit, pages);
    var mirror := settled.mirror.(history := p.history);
    settled.(mirror := if p.completed then Rebuilt(mirror) else mirror, cursor := p.cursor)
  }

  function SyncCompletes(d: Device, feed: seq<Posted>, limit: nat, pages: nat): bool {
    Pulled(Pull(d.mirror.history, d.cursor, 0, true), feed, limit, pages).completed
  }

  // ---------------------------------------------------------------- what every run keeps

  function RejectedOf(stored: seq<Stored>): set<Conflict> {
    if stored == [] then {}
    else
      var s := stored[|stored| - 1];
      RejectedOf(stored[..|stored| - 1]) + (if s.status.Rejected? then {Conflict(s.command, s.status.reason)} else {})
  }

  function ConflictSet(conflicts: seq<Conflict>): set<Conflict> {
    if conflicts == [] then {} else ConflictSet(conflicts[..|conflicts| - 1]) + {conflicts[|conflicts| - 1]}
  }

  /** No command has two conflict records. */
  predicate OnePerCommand(conflicts: seq<Conflict>) {
    conflicts == [] || (
      var front, last := conflicts[..|conflicts| - 1], conflicts[|conflicts| - 1];
      OnePerCommand(front) && forall k :: k in ConflictSet(front) ==> k.command.id != last.command.id)
  }

  /** Exactly one conflict record per rejected command, with its reason, and none besides. */
  ghost predicate ConflictsMatch(stored: seq<Stored>, conflicts: seq<Conflict>) {
    ConflictSet(conflicts) == RejectedOf(stored) && OnePerCommand(conflicts)
  }

  ghost predicate FeedOk(feed: seq<Posted>) {
    && Ascending(feed)
    && (feed != [] ==> feed[0].seqNo > 0)
    && DistinctIds(Inputs(feed))
    && WellShaped(Inputs(feed))
  }

  /** The cursor after the first `m` feed items. */
  function CursorAt(feed: seq<Posted>, m: nat): int
    requires m <= |feed|
  {
    if m == 0 then 0 else feed[m - 1].seqNo
  }

  /** The device holds the first `n` feed items and its cursor stands after the first `m` of them. */
  ghost predicate InStepAt(history: seq<Posted>, cursor: int, feed: seq<Posted>, n: nat, m: nat) {
    m <= n <= |feed| && history == feed[..n] && cursor == CursorAt(feed, m)
  }

  /** The device holds a prefix of the feed; its cursor may lag behind what it holds. */
  ghost predicate InStep(d: Device, feed: seq<Posted>) {
    exists m :: InStepAt(d.mirror.history, d.cursor, feed, |d.mirror.history|, m)
  }

  /** Log, overlay and conflict records agree. */
  ghost predicate LogAgrees(d: Device) {
    LogOk(d.stored) && OverlayAgrees(d.stored, d.mirror.overlay) && ConflictsMatch(d.stored, d.conflicts)
  }

  ghost predicate DeviceOk(d: Device, feed: seq<Posted>) {
    LogAgrees(d) && InStep(d, feed)
  }

  /** The feed may only grow at its end. */
  ghost predicate Grows(feed: seq<Posted>, later: seq<Posted>) {
    |feed| <= |later| && feed == later[..|feed|]
  }

  lemma GrowthKeepsInStep(d: Device, feed: seq<Posted>, later: seq<Posted>)
    requires InStep(d, feed) && Grows(feed, later)
    ensures InStep(d, later)
  {
    var n := |d.mirror.history|;
    var m :| InStepAt(d.mirror.history, d.cursor, feed, n, m);
    assert feed[..n] == later[..n];
    assert InStepAt(d.mirror.history, d.cursor, later, n, m);
  }

  // ---------------------------------------------------------------- append

  /**
   * The appends that leave a trace although they are refused: the command passes validation, its
   * first line is new to the ledger, but a later line is already there or the log already has the id.
   */
  ghost predicate Contaminates(d: Device, input: Command) {
    && input.id !in OverlayIds(d.mirror.overlay)
    && input.MovesStock() && input.lines != []
    && Normalized(d.mirror, input, LastSeq(d.stored) + 1).Ok?
    && CommandError(d.mirror, Normalized(d.mirror, input, LastSeq(d.stored) + 1).value).None?
    && LineId(input.id, 0) !in Ids(d.mirror.posted)
    && (HasStored(d.stored, input.id)
        || !(LineIds(input.id, |input.lines|) !! Ids(d.mirror.posted)))
  }

  lemma NormalizedKeeps(mi: Mirror, input: Command, seqNo: nat)
    requires Normalized(mi, input, seqNo).Ok?
    ensures var c := Normalized(mi, input, seqNo).value;
      && c.id == input.id && c.seqNo == seqNo && c.location == input.location
      && c.MovesStock() == input.MovesStock()
      && (c.SaleCommand? <==> input.SaleCommand?)
      && (c.MovesStock() ==> |c.lines| == |input.lines|)
  {
  }

  /** Validated movements are refused only because an id is taken. */
  lemma {:induction false} ValidatedAcceptance(h: seq<Movement>, c: Command)
    requires WellShaped(CommandToMovements(c))
    ensures Accepted(h, CommandToMovements(c)) == LineCount(c) <==> LineIds(c.id, LineCount(c)) !! Ids(h)
    ensures LineCount(c) > 0 ==> (Accepted(h, CommandToMovements(c)) == 0 <==> LineId(c.id, 0) in Ids(h))
  {
    var ms := CommandToMovements(c);
    CommandMovements(c);
    AcceptsAllIff(h, ms);
    if LineCount(c) > 0 {
      FirstLinesAt(c, |c.lines|, 0);
      WellShapedHead(ms);
      assert h + ms[..0] == h;
    }
  }

  lemma {:induction false} WellShapedHead(ms: seq<Movement>)
    requires WellShaped(ms) && ms != []
    ensures ShapeError(ms[0]).None?
  {
    if |ms| > 1 {
      WellShapedHead(ms[..|ms| - 1]);
    }
  }

  /** The first line gets into the ledger, but a later line or the log refuses the command. */
  ghost predicate EntryContaminates(d: Device, c: Command) {
    && LineCount(c) > 0 && LineId(c.id, 0) !in Ids(d.mirror.posted)
    && (HasStored(d.stored, c.id) || !(LineIds(c.id, LineCount(c)) !! Ids(d.mirror.posted)))
  }

  lemma RefusedEntryChangesNothingIff(d: Device, c: Command)
    requires WellShaped(CommandToMovements(c)) && Entered(d, c).1.Err?
    ensures Entered(d, c).0 == d <==> !EntryContaminates(d, c)
  {
    hide ShapeError;
    var ms := CommandToMovements(c);
    ValidatedAcceptance(d.mirror.posted, c);
    var k := Accepted(d.mirror.posted, ms);
    var after := Applied(d.mirror, c.id, ms);
    assert k > 0 ==> |after.posted| > |d.mirror.posted|;
    if k == 0 && ms != [] {
      assert ms[..k] == [] && after.posted == d.mirror.posted;
      assert after == d.mirror;
    }
  }

  lemma ValidatedShape(mi: Mirror, c: Command)
    requires CommandError(mi, c).None?
    ensures WellShaped(CommandToMovements(c))
    ensures c.SaleCommand? ==> !Short(mi, c.location, c.lines)
  {
    hide WellShaped, Short, FirstLineError, CommandToMovements;
  }

  /** A refused append leaves the device exactly as it was unless it is one of the contaminating ones. */
  lemma RefusedAppendChangesNothingIff(d: Device, input: Command)
    requires Appended(d, input).1.Err?
    ensures Appended(d, input).0 == d <==> !Contaminates(d, input)
  {
    hide Entered, Normalized, CommandError, LineIds, HasStored, OverlayIds, WellShaped, CommandToMovements;
    if input.id !in OverlayIds(d.mirror.overlay) && Normalized(d.mirror, input, LastSeq(d.stored) + 1).Ok? {
      var c := Normalized(d.mirror, input, LastSeq(d.stored) + 1).value;
      NormalizedKeeps(d.mirror, input, LastSeq(d.stored) + 1);
      if CommandError(d.mirror, c).None? {
        ValidatedShape(d.mirror, c);
        RefusedEntryChangesNothingIff(d, c);
      }
    }
  }

  lemma {:induction false} AppliedSaleTakesStock(mi: Mirror, c: Command, variant: Id)
    requires c.SaleCommand? && Accepted(mi.posted, CommandToMovements(c)) == |c.lines|
    ensures LevelOf(Applied(mi, c.id, CommandToMovements(c)), variant, c.location, OnHand)
         == LevelOf(mi, variant, c.location, OnHand) - Needed(c.lines, variant)
  {
    var ms := CommandToMovements(c);
    assert c.lines[..|c.lines|] == c.lines && ms[..|ms|] == ms;
    SaleFold(c, |c.lines|, variant);
    FoldAppend(mi.posted, ms, Bucket(variant, c.location, OnHand));
  }

  lemma {:induction false} StoredSaleTakesStock(d: Device, c: Command, variant: Id)
    requires c.SaleCommand? && WellShaped(CommandToMovements(c))
    requires HasStored(d.stored, c.id) && LineIds(c.id, |c.lines|) !! Ids(d.mirror.posted)
    ensures Entered(d, c).1 == Err(AlreadyStored)
    ensures LevelOf(Entered(d, c).0.mirror, variant, c.location, OnHand)
         == LevelOf(d.mirror, variant, c.location, OnHand) - Needed(c.lines, variant)
  {
    hide WellShaped, LineIds, Ids, Fold, Needed, CommandToMovements;
    ValidatedAcceptance(d.mirror.posted, c);
    AppliedSaleTakesStock(d.mirror, c, variant);
    var ms := CommandToMovements(c);
    if ms == [] {
      assert d.mirror.posted + ms[..0] == d.mirror.posted;
    }
  }

  /** A refused re-append of a sale the log already settled still takes its stock out of the mirror. */
  lemma {:induction false} ContaminatedSaleTakesStock(d: Device, input: Command, variant: Id)
    requires Contaminates(d, input) && input.SaleCommand?
    requires LineIds(input.id, |input.lines|) !! Ids(d.mirror.posted)
    ensures Appended(d, input).1 == Err(AlreadyStored)
    ensures LevelOf(Appended(d, input).0.mirror, variant, input.location, OnHand)
      == LevelOf(d.mirror, variant, input.location, OnHand)
         - Needed(Normalized(d.mirror, input, LastSeq(d.stored) + 1).value.lines, variant)
  {
    hide Normalized, CommandError, Accepted, LevelOf, Applied, Needed, LineIds, Ids, OverlayIds, WellShaped, CommandToMovements;
    var c := Normalized(d.mirror, input, LastSeq(d.stored) + 1).value;
    NormalizedKeeps(d.mirror, input, LastSeq(d.stored) + 1);
    ValidatedShape(d.mirror, c);
    StoredSaleTakesStock(d, c, variant);
  }

  function WithMovements(mi: Mirror, command: Id, ms: seq<Movement>): Mirror {
    if ms == [] then mi
    else mi.(posted := mi.posted + ms, states := UnitReplay(mi.seeds, mi.states, ms),
             overlay := mi.overlay + [OverlayEntry(command, ms)])
  }

  /** An accepted append queues the command and puts all its movements on top of the mirror. */
  ghost predicate Queued(d: Device, c: Command, after: Device) {
    var ms := CommandToMovements(c);
    && after == Device(d.stored + [Stored(c, Pending)], WithMovements(d.mirror, c.id, ms), d.cursor, d.conflicts)
    && !HasStored(d.stored, c.id) && c.seqNo == LastSeq(d.stored) + 1
    && WellShaped(ms)
    && Ids(ms) !! Ids(d.mirror.posted)
    && (c.SaleCommand? ==> !Short(d.mirror, c.location, c.lines))
  }

  lemma EnteredIsQueued(d: Device, c: Command)
    requires Entered(d, c).1.Ok?
    requires c.seqNo == LastSeq(d.stored) + 1 && (c.SaleCommand? ==> !Short(d.mirror, c.location, c.lines))
    ensures Queued(d, c, Entered(d, c).0) && Entered(d, c).1.value == c
  {
    hide ShapeError, Refusal, Short, WellShaped, DistinctIds, Ids, UnitReplay, CommandToMovements, HasStored, LastSeq;
    var ms := CommandToMovements(c);
    AcceptsAllIff(d.mirror.posted, ms);
    assert ms[..|ms|] == ms;
  }

  lemma AcceptedAppendIsQueued(d: Device, input: Command)
    requires Appended(d, input).1.Ok?
    ensures Queued(d, Appended(d, input).1.value, Appended(d, input).0)
    ensures Appended(d, input).1.value.id == input.id
    ensures Appended(d, input).1.value.SaleCommand? <==> input.SaleCommand?
  {
    hide Entered, Queued, Normalized, CommandError, OverlayIds;
    var c := Normalized(d.mirror, input, LastSeq(d.stored) + 1).value;
    NormalizedKeeps(d.mirror, input, LastSeq(d.stored) + 1);
    ValidatedShape(d.mirror, c);
    EnteredIsQueued(d, c);
  }

  /** The entries no pending command owns. */
  function OrphansOf(d: Device): seq<OverlayEntry> {
    Part(d.stored, d.mirror.overlay, false)
  }

  lemma QueuedAgrees(d: Device, c: Command, after: Device)
    requires LogAgrees(d) && Queued(d, c, after)
    ensures LogAgrees(after) && OrphansOf(after) == OrphansOf(d)
  {
    hide WellShaped, OverlayAgrees, Part, CommandToMovements, HasStored, Ids, Short, UnitReplay, OnePerCommand, ConflictSet;
    assert after.stored[..|d.stored|] == d.stored;
    QueueAgrees(d.stored, d.mirror.overlay, c);
    assert RejectedOf(after.stored) == RejectedOf(d.stored);
  }

  /**
   * The append that leaves an orphan: the log already has the id without an entry for it, the
   * command passes validation, and all its lines are new to the mirror.
   */
  ghost predicate Reenters(d: Device, input: Command) {
    && Contaminates(d, input) && HasStored(d.stored, input.id)
    && LineIds(input.id, |input.lines|) !! Ids(d.mirror.posted)
  }

  /** The entry it leaves. */
  function EntryOf(d: Device, input: Command): OverlayEntry
    requires Normalized(d.mirror, input, LastSeq(d.stored) + 1).Ok?
  {
    OverlayEntry(input.id, CommandToMovements(Normalized(d.mirror, input, LastSeq(d.stored) + 1).value))
  }

  lemma RefusedEntryKeepsLog(d: Device, c: Command)
    requires WellShaped(CommandToMovements(c)) && Entered(d, c).1.Err?
    ensures var after, ms := Entered(d, c).0, CommandToMovements(c);
      var allNew := LineIds(c.id, LineCount(c)) !! Ids(d.mirror.posted);
      && after.stored == d.stored && after.cursor == d.cursor && after.conflicts == d.conflicts
      && after.mirror.history == d.mirror.history && after.mirror.seeds == d.mirror.seeds
      && after.mirror.overlay == d.mirror.overlay + (if ms != [] && allNew then [OverlayEntry(c.id, ms)] else [])
      && (allNew ==> HasStored(d.stored, c.id))
  {
    hide WellShaped, CommandToMovements, HasStored, LineIds, Ids, UnitReplay;
    ValidatedAcceptance(d.mirror.posted, c);
  }

  /** A command the log has and whose lines are all new. */
  ghost predicate ReentersAs(d: Device, c: Command) {
    CommandToMovements(c) != [] && HasStored(d.stored, c.id) && LineIds(c.id, LineCount(c)) !! Ids(d.mirror.posted)
  }

  /** Nothing changed that an append may not change, and the orphans grew by these. */
  ghost predicate Orphaned(d: Device, after: Device, more: seq<OverlayEntry>) {
    && LogAgrees(after) && after.mirror.history == d.mirror.history && after.cursor == d.cursor
    && after.mirror.seeds == d.mirror.seeds
    && OrphansOf(after) == OrphansOf(d) + more
  }

  lemma Unchanged(d: Device)
    requires LogAgrees(d)
    ensures Orphaned(d, d, [])
  {
    hide LogAgrees, OrphansOf;
    assert OrphansOf(d) + [] == OrphansOf(d);
  }

  lemma RefusedEntryOrphans(d: Device, c: Command)
    requires LogAgrees(d) && WellShaped(CommandToMovements(c)) && Entered(d, c).1.Err? && !HasEntry(d.mirror.overlay, c.id)
    ensures Orphaned(d, Entered(d, c).0, if ReentersAs(d, c) then [OverlayEntry(c.id, CommandToMovements(c))] else [])
  {
    hide Entered, WellShaped, CommandToMovements, HasStored, LineIds, Ids, LogOk, OverlayAgrees, ConflictsMatch, Part;
    RefusedEntryKeepsLog(d, c);
    if ReentersAs(d, c) {
      EntryMovements(c);
      ReenteredIsOrphan(d.stored, d.mirror.overlay, OverlayEntry(c.id, CommandToMovements(c)));
    } else {
      assert d.mirror.overlay + [] == d.mirror.overlay && OrphansOf(d) + [] == OrphansOf(d);
    }
  }

  lemma AcceptedOrphans(d: Device, input: Command)
    requires LogAgrees(d) && Appended(d, input).1.Ok?
    ensures Orphaned(d, Appended(d, input).0, []) && !HasStored(d.stored, input.id)
  {
    hide Appended, Queued, LogAgrees, OrphansOf, HasStored;
    AcceptedAppendIsQueued(d, input);
    AcceptedIsNew(d, input);
    QueuedAgrees(d, Appended(d, input).1.value, Appended(d, input).0);
    assert OrphansOf(d) + [] == OrphansOf(d);
  }

  /** What an append orphans. */
  ghost function OrphanedBy(d: Device, input: Command): seq<OverlayEntry> {
    hide Normalized, CommandError, HasStored, LineIds;
    if Reenters(d, input) then [EntryOf(d, input)] else []
  }

  /** Any append keeps log, overlay and conflicts in agreement; only a re-entering one leaves an orphan, namely its entry. */
  lemma AppendOrphans(d: Device, input: Command)
    requires LogAgrees(d)
    ensures Orphaned(d, Appended(d, input).0, OrphanedBy(d, input))
  {
    hide LogAgrees, Orphaned, Appended, Entered, Validates, Reenters, HasStored, HasEntry, OverlayIds;
    AppendedIs(d, input);
    if Appended(d, input).1.Ok? {
      AcceptedOrphans(d, input);
    } else if Validates(d, input) {
      ValidatedOrphans(d, input);
    } else {
      Unchanged(d);
    }
  }

  lemma ValidatedOrphans(d: Device, input: Command)
    requires LogAgrees(d) && Validates(d, input) && Appended(d, input).1.Err?
    ensures Orphaned(d, Appended(d, input).0, OrphanedBy(d, input))
  {
    hide LogAgrees, Orphaned, Appended, Entered, Normalized, CommandError, OverlayIds, Reenters, ReentersAs, CommandToMovements,
         LastSeq, HasEntry, WellShaped;
    AppendedIs(d, input);
    HasEntryIff(d.mirror.overlay, input.id);
    var c := Normalized(d.mirror, input, LastSeq(d.stored) + 1).value;
    NormalizedKeeps(d.mirror, input, LastSeq(d.stored) + 1);
    ValidatedShape(d.mirror, c);
    RefusedEntryOrphans(d, c);
    ReentersIff(d, input, c);
  }

  /** The command is not in the overlay, resolves and passes validation. */
  ghost predicate Validates(d: Device, input: Command) {
    && input.id !in OverlayIds(d.mirror.overlay)
    && Normalized(d.mirror, input, LastSeq(d.stored) + 1).Ok?
    && CommandError(d.mirror, Normalized(d.mirror, input, LastSeq(d.stored) + 1).value).None?
  }

  lemma AppendedIs(d: Device, input: Command)
    ensures Validates(d, input) ==>
      Appended(d, input) == Entered(d, Normalized(d.mirror, input, LastSeq(d.stored) + 1).value)
    ensures !Validates(d, input) ==> Appended(d, input).0 == d && Appended(d, input).1.Err?
    ensures !Validates(d, input) || !HasStored(d.stored, input.id) ==> !Reenters(d, input)
  {
    hide Entered, Normalized, CommandError, OverlayIds, HasStored, LineIds;
  }

  lemma AcceptedIsNew(d: Device, input: Command)
    requires Appended(d, input).1.Ok?
    ensures !HasStored(d.stored, input.id)
    ensures Appended(d, input).0.mirror.history == d.mirror.history && Appended(d, input).0.cursor == d.cursor
    ensures Appended(d, input).0.mirror.seeds == d.mirror.seeds
  {
    hide Normalized, CommandError, OverlayIds, CommandToMovements, UnitReplay, HasStored;
    NormalizedKeeps(d.mirror, input, LastSeq(d.stored) + 1);
  }

  /** In terms of the validated command: it re-enters when it moves stock by new lines only and the log has it. */
  lemma ReentersIff(d: Device, input: Command, c: Command)
    requires input.id !in OverlayIds(d.mirror.overlay)
    requires Normalized(d.mirror, input, LastSeq(d.stored) + 1) == Ok(c) && CommandError(d.mirror, c).None?
    ensures Reenters(d, input) <==> ReentersAs(d, c)
  {
    hide Normalized, CommandError, OverlayIds, HasStored, LineIds, Ids, FirstLines;
    NormalizedKeeps(d.mirror, input, LastSeq(d.stored) + 1);
    if LineCount(c) > 0 {
      LineIdsHave(c.id, LineCount(c), 0);
    }
  }

  /** Every append, accepted or refused, keeps the replica invariants. */
  lemma AppendKeepsDeviceOk(d: Device, feed: seq<Posted>, input: Command)
    requires DeviceOk(d, feed)
    ensures DeviceOk(Appended(d, input).0, feed)
  {
    hide LogAgrees, Appended, OrphansOf, OrphanedBy;
    AppendOrphans(d, input);
    var m :| InStepAt(d.mirror.history, d.cursor, feed, |d.mirror.history|, m);
    var after := Appended(d, input).0;
    assert InStepAt(after.mirror.history, after.cursor, feed, |after.mirror.history|, m);
  }

  lemma EffectiveIds(mi: Mirror)
    ensures Ids(Effective(mi)) == Ids(Inputs(mi.history)) + Ids(Flatten(mi.overlay))
  {
    SortIds(mi.history);
    var known := Ids(Inputs(mi.history));
    UnseenIds(Flatten(mi.overlay), known);
    IdsAppend(Inputs(SortBySeq(mi.history)), Unseen(Flatten(mi.overlay), known));
  }

  lemma ConcatAssociates<T>(a: seq<T>, b: seq<T>, c: seq<T>)
    ensures a + (b + c) == a + b + c
  {
  }

  lemma {:induction false} UnseenWithEntry(overlay: seq<OverlayEntry>, entry: OverlayEntry, known: set<Id>)
    requires Ids(entry.movements) !! known
    ensures Unseen(Flatten(overlay + [entry]), known) == Unseen(Flatten(overlay), known) + entry.movements
  {
    assert (overlay + [entry])[..|overlay + [entry]| - 1] == overlay;
    UnseenAll(entry.movements, known);
    UnseenAppend(Flatten(overlay), entry.movements, known);
  }

  lemma {:induction false} MovementsKeepFresh(mi: Mirror, id: Id, ms: seq<Movement>)
    requires Fresh(mi) && ms != []
    requires Ids(ms) !! Ids(mi.posted)
    ensures Effective(WithMovements(mi, id, ms)) == Effective(mi) + ms
  {
    EffectiveIds(mi);
    var known := Ids(Inputs(mi.history));
    UnseenWithEntry(mi.overlay, OverlayEntry(id, ms), known);
    ConcatAssociates(Inputs(SortBySeq(mi.history)), Unseen(Flatten(mi.overlay), known), ms);
  }

  lemma QueuedKeepsFresh(d: Device, c: Command, after: Device)
    requires Fresh(d.mirror) && Queued(d, c, after)
    ensures Fresh(after.mirror)
  {
    hide ShapeError;
    var mi, ms := d.mirror, CommandToMovements(c);
    if ms != [] {
      MovementsKeepFresh(mi, c.id, ms);
      UnitReplayAppend(mi.seeds, SeedStates(mi.seeds), Effective(mi), ms);
    }
  }

  /**
   * Between syncs, applying a command incrementally gives the same levels and unit states as a
   * full rebuild: a fresh mirror stays fresh.
   */
  lemma AppendKeepsFresh(d: Device, input: Command)
    requires Fresh(d.mirror) && Appended(d, input).1.Ok?
    ensures Fresh(Appended(d, input).0.mirror)
    ensures Rebuilt(Appended(d, input).0.mirror).posted == Appended(d, input).0.mirror.posted
    ensures Rebuilt(Appended(d, input).0.mirror).states == Appended(d, input).0.mirror.states
  {
    AcceptedAppendIsQueued(d, input);
    QueuedKeepsFresh(d, Appended(d, input).1.value, Appended(d, input).0);
  }

  // ---------------------------------------------------------------- an accepted sale is covered

  lemma {:induction false} SaleFold(c: Command, k: nat, variant: Id)
    requires c.SaleCommand? && k <= |c.lines|
    ensures Fold(FirstLines(c, k), Bucket(variant, c.location, OnHand)) == -Needed(c.lines[..k], variant)
  {
    if k > 0 {
      SaleFold(c, k - 1, variant);
      FoldOne(FirstLines(c, k - 1), LineMovement(c, k - 1), Bucket(variant, c.location, OnHand));
      assert c.lines[..k][..k - 1] == c.lines[..k - 1];
    }
  }

  lemma {:induction false} QueuedSaleIsCovered(d: Device, c: Command, after: Device, variant: Id)
    requires c.SaleCommand? && Queued(d, c, after)
    ensures LevelOf(after.mirror, variant, c.location, OnHand)
         == LevelOf(d.mirror, variant, c.location, OnHand) - Needed(c.lines, variant)
    ensures (exists i :: 0 <= i < |c.lines| && c.lines[i].variant == variant) ==>
              LevelOf(after.mirror, variant, c.location, OnHand) >= 0
  {
    var ms := CommandToMovements(c);
    assert c.lines[..|c.lines|] == c.lines && ms[..|ms|] == ms;
    SaleFold(c, |c.lines|, variant);
    FoldAppend(d.mirror.posted, ms, Bucket(variant, c.location, OnHand));
  }

  /**
   * An accepted sale, summed over all its lines, never drives the on-hand level of a variant it
   * sells below zero, and takes exactly the summed quantity.
   */
  lemma {:induction false} AcceptedSaleIsCovered(d: Device, input: Command, variant: Id)
    requires Appended(d, input).1.Ok? && input.SaleCommand?
    ensures var after := Appended(d, input).0.mirror;
      var c := Appended(d, input).1.value;
      && c.SaleCommand?
      && LevelOf(after, variant, c.location, OnHand)
         == LevelOf(d.mirror, variant, c.location, OnHand) - Needed(c.lines, variant)
      && ((exists i :: 0 <= i < |c.lines| && c.lines[i].variant == variant) ==>
            LevelOf(after, variant, c.location, OnHand) >= 0)
  {
    AcceptedAppendIsQueued(d, input);
    QueuedSaleIsCovered(d, Appended(d, input).1.value, Appended(d, input).0, variant);
  }
}
