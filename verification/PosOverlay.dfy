/**
 * The overlay against the command log. Besides an entry for every pending command it may hold
 * orphans: entries of commands the log had already settled when they were appended again.
 */
module PosOverlay {
  import opened Ledger
  import opened PosModel

  /** The overlay the command log calls for: every pending command that moves stock, in append order. */
  function OverlayOf(stored: seq<Stored>): seq<OverlayEntry> {
    if stored == [] then []
    else
      var front := OverlayOf(stored[..|stored| - 1]);
      var s := stored[|stored| - 1];
      var ms := CommandToMovements(s.command);
      if s.status == Pending && ms != [] then front + [OverlayEntry(s.command.id, ms)] else front
  }

  /** Ids are unique, sequence numbers rise in append order, and only well-shaped commands are queued. */
  predicate LogOk(stored: seq<Stored>) {
    stored == [] || (
      var front, c := stored[..|stored| - 1], stored[|stored| - 1].command;
      LogOk(front) && !HasStored(front, c.id) && c.seqNo > LastSeq(front) && WellShaped(CommandToMovements(c)))
  }

  lemma {:induction false} FlattenPush(overlay: seq<OverlayEntry>, e: OverlayEntry)
    ensures Flatten(overlay + [e]) == Flatten(overlay) + e.movements
  {
    assert (overlay + [e])[..|overlay|] == overlay;
  }

  lemma {:induction false} StoredHas(stored: seq<Stored>, i: nat)
    requires i < |stored|
    ensures HasStored(stored, stored[i].command.id)
  {
    if i < |stored| - 1 {
      StoredHas(stored[..|stored| - 1], i);
    }
  }

  /** The movements of one more command, if it is pending. */
  lemma {:induction false} OverlayStep(stored: seq<Stored>)
    requires stored != []
    ensures var s := stored[|stored| - 1];
      Flatten(OverlayOf(stored)) == Flatten(OverlayOf(stored[..|stored| - 1]))
        + (if s.status == Pending then CommandToMovements(s.command) else [])
  {
    hide CommandToMovements;
    var front, s := OverlayOf(stored[..|stored| - 1]), stored[|stored| - 1];
    FlattenPush(front, OverlayEntry(s.command.id, CommandToMovements(s.command)));
    assert Flatten(front) + [] == Flatten(front);
  }

  lemma NothingStored()
    ensures Ids(Flatten(OverlayOf([]))) == {}
  {
  }

  /** Every id in the overlay is a line id of a pending command. */
  lemma {:induction false} FlattenSource(stored: seq<Stored>, id: Id) returns (i: nat)
    requires id in Ids(Flatten(OverlayOf(stored)))
    ensures i < |stored| && stored[i].status == Pending
    ensures id in LineIds(stored[i].command.id, LineCount(stored[i].command))
  {
    hide Flatten, OverlayOf, CommandToMovements, LineIds, LineCount, Ids;
    NothingStored();
    var front, s := stored[..|stored| - 1], stored[|stored| - 1];
    OverlayStep(stored);
    if id in Ids(Flatten(OverlayOf(front))) {
      i := FlattenSource(front, id);
    } else {
      IdsAppend(Flatten(OverlayOf(front)), if s.status == Pending then CommandToMovements(s.command) else []);
      CommandMovements(s.command);
      assert Flatten(OverlayOf(front)) + [] == Flatten(OverlayOf(front));
      i := |stored| - 1;
    }
  }

  /** Every line of a pending command is in the overlay. */
  lemma {:induction false} FlattenCovers(stored: seq<Stored>, i: nat)
    requires i < |stored| && stored[i].status == Pending
    ensures LineIds(stored[i].command.id, LineCount(stored[i].command)) <= Ids(Flatten(OverlayOf(stored)))
  {
    var front, s := stored[..|stored| - 1], stored[|stored| - 1];
    var ms := CommandToMovements(s.command);
    FlattenPush(OverlayOf(front), OverlayEntry(s.command.id, ms));
    IdsAppend(Flatten(OverlayOf(front)), ms);
    CommandMovements(s.command);
    if i < |stored| - 1 {
      FlattenCovers(front, i);
    }
  }

  lemma {:induction false} HasStoredAt(stored: seq<Stored>, i: nat, id: Id)
    requires i < |stored| && !HasStored(stored, id)
    ensures stored[i].command.id != id
  {
    if i < |stored| - 1 {
      HasStoredAt(stored[..|stored| - 1], i, id);
    }
  }

  /** Settling a command takes exactly its entry out of the overlay. */
  lemma {:induction false} OverlayAfterMark(stored: seq<Stored>, id: Id, status: CommandStatus)
    requires status != Pending
    ensures OverlayOf(Marked(stored, id, status)) == Without(OverlayOf(stored), id)
  {
    if stored != [] {
      var front, s := stored[..|stored| - 1], stored[|stored| - 1];
      OverlayAfterMark(front, id, status);
      var marked := if s.command.id == id then s.(status := status) else s;
      assert Marked(stored, id, status)[..|stored| - 1] == Marked(front, id, status);
      var e := OverlayEntry(s.command.id, CommandToMovements(s.command));
      assert (OverlayOf(front) + [e])[..|OverlayOf(front)|] == OverlayOf(front);
    }
  }

  // ---------------------------------------------------------------- entries and orphans

  /** A pending command of this id moves stock. */
  predicate StockPending(stored: seq<Stored>, id: Id) {
    stored != [] && (
      var s := stored[|stored| - 1];
      (s.command.id == id && s.status == Pending && CommandToMovements(s.command) != [])
      || StockPending(stored[..|stored| - 1], id))
  }

  /** The overlay's entries that belong to a pending command, or those that do not. */
  function Part(stored: seq<Stored>, overlay: seq<OverlayEntry>, pending: bool): seq<OverlayEntry> {
    if overlay == [] then []
    else
      var front, e := Part(stored, overlay[..|overlay| - 1], pending), overlay[|overlay| - 1];
      if StockPending(stored, e.command) == pending then front + [e] else front
  }

  predicate HasEntry(overlay: seq<OverlayEntry>, id: Id) {
    overlay != [] && (overlay[|overlay| - 1].command == id || HasEntry(overlay[..|overlay| - 1], id))
  }

  /** An entry holds a command's movements: well-shaped, one per line. */
  ghost predicate EntryOk(e: OverlayEntry) {
    && e.movements != [] && WellShaped(e.movements) && DistinctIds(e.movements)
    && Ids(e.movements) == LineIds(e.command, |e.movements|)
  }

  /** Entries of different commands, all of which the log knows. */
  ghost predicate EntriesOk(stored: seq<Stored>, overlay: seq<OverlayEntry>) {
    overlay == [] || (
      var front, e := overlay[..|overlay| - 1], overlay[|overlay| - 1];
      EntriesOk(stored, front) && !HasEntry(front, e.command) && HasStored(stored, e.command) && EntryOk(e))
  }

  /** The overlay is the pending commands' entries, in append order, with orphans in between. */
  ghost predicate OverlayAgrees(stored: seq<Stored>, overlay: seq<OverlayEntry>) {
    EntriesOk(stored, overlay) && Part(stored, overlay, true) == OverlayOf(stored)
  }

  lemma {:induction false} HasEntryIff(overlay: seq<OverlayEntry>, id: Id)
    ensures HasEntry(overlay, id) <==> id in OverlayIds(overlay)
  {
    if overlay != [] {
      var front, e := overlay[..|overlay| - 1], overlay[|overlay| - 1];
      HasEntryIff(front, id);
      assert overlay == front + [e];
    }
  }

  lemma {:induction false} EntriesAt(stored: seq<Stored>, overlay: seq<OverlayEntry>, k: nat)
    requires EntriesOk(stored, overlay) && k < |overlay|
    ensures EntryOk(overlay[k]) && HasStored(stored, overlay[k].command)
  {
    hide EntryOk;
    if k < |overlay| - 1 {
      EntriesAt(stored, overlay[..|overlay| - 1], k);
    }
  }

  lemma {:induction false} EntriesDiffer(stored: seq<Stored>, overlay: seq<OverlayEntry>, j: nat, k: nat)
    requires EntriesOk(stored, overlay) && j < k < |overlay|
    ensures overlay[j].command != overlay[k].command
  {
    hide EntryOk;
    var front := overlay[..|overlay| - 1];
    if k < |front| {
      EntriesDiffer(stored, front, j, k);
    } else {
      HasEntryAt(front, j);
    }
  }

  lemma {:induction false} HasEntryAt(overlay: seq<OverlayEntry>, k: nat)
    requires k < |overlay|
    ensures HasEntry(overlay, overlay[k].command)
  {
    if k < |overlay| - 1 {
      HasEntryAt(overlay[..|overlay| - 1], k);
    }
  }

  lemma EntryMovements(c: Command)
    requires WellShaped(CommandToMovements(c)) && CommandToMovements(c) != []
    ensures EntryOk(OverlayEntry(c.id, CommandToMovements(c)))
  {
    hide WellShaped;
    CommandMovements(c);
  }

  // ---------------------------------------------------------------- replaying it

  /** Every movement in the overlay is some entry's. */
  lemma {:induction false} FlattenEntry(overlay: seq<OverlayEntry>, id: Id) returns (k: nat)
    requires id in Ids(Flatten(overlay))
    ensures k < |overlay| && id in Ids(overlay[k].movements)
  {
    var front, e := overlay[..|overlay| - 1], overlay[|overlay| - 1];
    IdsAppend(Flatten(front), e.movements);
    if id in Ids(e.movements) {
      k := |front|;
    } else {
      k := FlattenEntry(front, id);
    }
  }

  lemma {:induction false} FlattenHas(overlay: seq<OverlayEntry>, k: nat)
    requires k < |overlay|
    ensures Ids(overlay[k].movements) <= Ids(Flatten(overlay))
  {
    var front, e := overlay[..|overlay| - 1], overlay[|overlay| - 1];
    IdsAppend(Flatten(front), e.movements);
    if k < |front| {
      FlattenHas(front, k);
    }
  }

  /** Whatever the overlay holds can be replayed without a refusal. */
  lemma {:induction false} EntriesReplayable(stored: seq<Stored>, overlay: seq<OverlayEntry>)
    requires EntriesOk(stored, overlay)
    ensures DistinctIds(Flatten(overlay)) && WellShaped(Flatten(overlay))
  {
    if overlay != [] {
      hide WellShaped, DistinctIds, Ids, LineIds, HasStored;
      var front, e := overlay[..|overlay| - 1], overlay[|overlay| - 1];
      EntriesReplayable(stored, front);
      assert Flatten(overlay) == Flatten(front) + e.movements;
      forall id | id in Ids(Flatten(front)) && id in Ids(e.movements) ensures false {
        var k := FlattenEntry(front, id);
        EntriesAt(stored, front, k);
        assert overlay[k] == front[k];
        EntriesDiffer(stored, overlay, k, |front|);
        LinesOfDifferentCommands(front[k].command, |front[k].movements|, e.command, |e.movements|);
      }
      DistinctAppend(Flatten(front), e.movements);
      WellShapedAppend(Flatten(front), e.movements);
    } else {
      NothingToReplay();
    }
  }

  lemma NothingToReplay()
    ensures DistinctIds(Flatten([])) && WellShaped(Flatten([]))
  {
  }

  // ---------------------------------------------------------------- appending and settling

  lemma {:induction false} EntriesKnown(stored: seq<Stored>, s: Stored, overlay: seq<OverlayEntry>)
    requires EntriesOk(stored, overlay)
    ensures EntriesOk(stored + [s], overlay)
  {
    hide EntryOk;
    if overlay != [] {
      EntriesKnown(stored, s, overlay[..|overlay| - 1]);
      assert (stored + [s])[..|stored|] == stored;
    }
  }

  /** A new command owns none of the entries there are. */
  lemma {:induction false} NewOwnsNothing(stored: seq<Stored>, s: Stored, overlay: seq<OverlayEntry>, pending: bool)
    requires EntriesOk(stored, overlay) && !HasStored(stored, s.command.id)
    ensures Part(stored + [s], overlay, pending) == Part(stored, overlay, pending)
  {
    hide EntryOk, HasStored, CommandToMovements;
    if overlay != [] {
      NewOwnsNothing(stored, s, overlay[..|overlay| - 1], pending);
      assert (stored + [s])[..|stored|] == stored;
      assert overlay[|overlay| - 1].command != s.command.id;
    }
  }

  lemma {:induction false} PartPush(stored: seq<Stored>, overlay: seq<OverlayEntry>, e: OverlayEntry, pending: bool)
    ensures Part(stored, overlay + [e], pending) ==
      Part(stored, overlay, pending) + (if StockPending(stored, e.command) == pending then [e] else [])
  {
    hide StockPending;
    assert (overlay + [e])[..|overlay|] == overlay;
  }

  lemma {:induction false} OverlayOfPush(stored: seq<Stored>, c: Command)
    ensures var all, ms := stored + [Stored(c, Pending)], CommandToMovements(c);
      && OverlayOf(all) == OverlayOf(stored) + (if ms != [] then [OverlayEntry(c.id, ms)] else [])
      && (ms != [] ==> StockPending(all, c.id))
  {
    hide CommandToMovements;
    assert (stored + [Stored(c, Pending)])[..|stored|] == stored;
  }

  lemma {:induction false} EntriesPush(stored: seq<Stored>, overlay: seq<OverlayEntry>, e: OverlayEntry)
    requires EntriesOk(stored, overlay) && !HasEntry(overlay, e.command) && HasStored(stored, e.command) && EntryOk(e)
    ensures EntriesOk(stored, overlay + [e])
  {
    hide EntryOk, HasStored;
    assert (overlay + [e])[..|overlay|] == overlay;
  }

  /** Queueing a new command adds its entry, if it moves stock, and leaves the orphans alone. */
  lemma QueueAgrees(stored: seq<Stored>, overlay: seq<OverlayEntry>, c: Command)
    requires OverlayAgrees(stored, overlay) && !HasStored(stored, c.id) && WellShaped(CommandToMovements(c))
    ensures var ms := CommandToMovements(c);
      var after := if ms == [] then overlay else overlay + [OverlayEntry(c.id, ms)];
      && OverlayAgrees(stored + [Stored(c, Pending)], after)
      && Part(stored + [Stored(c, Pending)], after, false) == Part(stored, overlay, false)
  {
    hide WellShaped, CommandToMovements, HasStored, EntriesOk, EntryOk, Part, OverlayOf, StockPending, HasEntry;
    var s := Stored(c, Pending);
    var e := OverlayEntry(c.id, CommandToMovements(c));
    EntriesKnown(stored, s, overlay);
    NewOwnsNothing(stored, s, overlay, true);
    NewOwnsNothing(stored, s, overlay, false);
    OverlayOfPush(stored, c);
    if e.movements != [] {
      EntryMovements(c);
      NewHasNoEntry(stored, overlay, c.id);
      LastIsStored(stored, s);
      EntriesPush(stored + [s], overlay, e);
      PartPush(stored + [s], overlay, e, true);
      PartPush(stored + [s], overlay, e, false);
    }
  }

  lemma {:induction false} LastIsStored(stored: seq<Stored>, s: Stored)
    ensures HasStored(stored + [s], s.command.id)
  {
  }

  lemma {:induction false} NewHasNoEntry(stored: seq<Stored>, overlay: seq<OverlayEntry>, id: Id)
    requires EntriesOk(stored, overlay) && !HasStored(stored, id)
    ensures !HasEntry(overlay, id)
  {
    hide EntryOk, HasStored;
    if overlay != [] {
      NewHasNoEntry(stored, overlay[..|overlay| - 1], id);
    }
  }

  /** A command the log already has, entered once more without an entry of its own, leaves an orphan. */
  lemma {:induction false} ReenteredIsOrphan(stored: seq<Stored>, overlay: seq<OverlayEntry>, e: OverlayEntry)
    requires OverlayAgrees(stored, overlay) && HasStored(stored, e.command) && !HasEntry(overlay, e.command) && EntryOk(e)
    ensures OverlayAgrees(stored, overlay + [e])
    ensures Part(stored, overlay + [e], false) == Part(stored, overlay, false) + [e]
  {
    hide EntryOk, HasStored;
    assert (overlay + [e])[..|overlay|] == overlay;
    if StockPending(stored, e.command) {
      PendingHasEntry(stored, e.command);
      PartEntries(stored, overlay, true, e.command);
    }
    PartPush(stored, overlay, e, true);
    PartPush(stored, overlay, e, false);
  }

  lemma {:induction false} PendingHasEntry(stored: seq<Stored>, id: Id)
    requires StockPending(stored, id)
    ensures HasEntry(OverlayOf(stored), id)
  {
    hide CommandToMovements;
    var front, s := stored[..|stored| - 1], stored[|stored| - 1];
    var e := OverlayEntry(s.command.id, CommandToMovements(s.command));
    assert (OverlayOf(front) + [e])[..|OverlayOf(front)|] == OverlayOf(front);
    if !(s.command.id == id && s.status == Pending && CommandToMovements(s.command) != []) {
      PendingHasEntry(front, id);
    }
  }

  lemma {:induction false} PartEntries(stored: seq<Stored>, overlay: seq<OverlayEntry>, pending: bool, id: Id)
    requires HasEntry(Part(stored, overlay, pending), id)
    ensures HasEntry(overlay, id)
  {
    hide StockPending;
    if overlay != [] {
      var front, e := overlay[..|overlay| - 1], overlay[|overlay| - 1];
      PartPush(stored, front, e, pending);
      assert overlay == front + [e];
      var part := Part(stored, front, pending);
      assert (part + [e])[..|part|] == part;
      if e.command != id {
        PartEntries(stored, front, pending, id);
      }
    }
  }

  lemma {:induction false} MarkedPending(stored: seq<Stored>, id: Id, status: CommandStatus, other: Id)
    requires other != id
    ensures StockPending(Marked(stored, id, status), other) == StockPending(stored, other)
  {
    hide CommandToMovements;
    if stored != [] {
      var front := stored[..|stored| - 1];
      MarkedPending(front, id, status, other);
      assert Marked(stored, id, status)[..|front|] == Marked(front, id, status);
    }
  }

  lemma {:induction false} WithoutPush(overlay: seq<OverlayEntry>, e: OverlayEntry, id: Id)
    ensures Without(overlay + [e], id) == Without(overlay, id) + (if e.command == id then [] else [e])
  {
    assert (overlay + [e])[..|overlay|] == overlay;
  }

  /** Settling an id takes its entry out of either part and moves no other entry across. */
  lemma {:induction false} PartAfterMark(stored: seq<Stored>, overlay: seq<OverlayEntry>, id: Id, status: CommandStatus, pending: bool)
    ensures Part(Marked(stored, id, status), Without(overlay, id), pending) == Without(Part(stored, overlay, pending), id)
  {
    hide StockPending, Marked;
    if overlay != [] {
      var front, e := overlay[..|overlay| - 1], overlay[|overlay| - 1];
      PartAfterMark(stored, front, id, status, pending);
      WithoutPush(Part(stored, front, pending), e, id);
      if e.command != id {
        MarkedPending(stored, id, status, e.command);
        PartPush(Marked(stored, id, status), Without(front, id), e, pending);
      }
    }
  }

  lemma {:induction false} WithoutEntries(overlay: seq<OverlayEntry>, id: Id, other: Id)
    requires HasEntry(Without(overlay, id), other)
    ensures HasEntry(overlay, other)
  {
    if overlay != [] {
      var front, e := overlay[..|overlay| - 1], overlay[|overlay| - 1];
      assert (Without(front, id) + [e])[..|Without(front, id)|] == Without(front, id);
      if e.command != other {
        WithoutEntries(front, id, other);
      }
    }
  }

  lemma {:induction false} MarkedHas(stored: seq<Stored>, id: Id, status: CommandStatus, other: Id)
    ensures HasStored(Marked(stored, id, status), other) == HasStored(stored, other)
    ensures LastSeq(Marked(stored, id, status)) == LastSeq(stored)
  {
    if stored != [] {
      var front := stored[..|stored| - 1];
      MarkedHas(front, id, status, other);
      assert Marked(stored, id, status)[..|front|] == Marked(front, id, status);
    }
  }

  lemma {:induction false} EntriesAfterMark(stored: seq<Stored>, overlay: seq<OverlayEntry>, id: Id, status: CommandStatus)
    requires EntriesOk(stored, overlay)
    ensures EntriesOk(Marked(stored, id, status), Without(overlay, id))
  {
    hide EntryOk, Marked, HasStored;
    if overlay != [] {
      var front, e := overlay[..|overlay| - 1], overlay[|overlay| - 1];
      EntriesAfterMark(stored, front, id, status);
      if e.command != id {
        MarkedHas(stored, id, status, e.command);
        if HasEntry(Without(front, id), e.command) {
          WithoutEntries(front, id, e.command);
        }
        assert (Without(front, id) + [e])[..|Without(front, id)|] == Without(front, id);
      }
    }
  }

  /** Settling keeps the overlay in agreement and discards an orphan only with its id. */
  lemma {:induction false} SettleAgrees(stored: seq<Stored>, overlay: seq<OverlayEntry>, id: Id, status: CommandStatus)
    requires OverlayAgrees(stored, overlay) && status != Pending
    ensures OverlayAgrees(Marked(stored, id, status), Without(overlay, id))
    ensures Part(Marked(stored, id, status), Without(overlay, id), false) == Without(Part(stored, overlay, false), id)
  {
    hide EntriesOk, Part, Marked, Without, OverlayOf;
    EntriesAfterMark(stored, overlay, id, status);
    PartAfterMark(stored, overlay, id, status, true);
    PartAfterMark(stored, overlay, id, status, false);
    OverlayAfterMark(stored, id, status);
  }

  // ---------------------------------------------------------------- what orphans add

  /** Every line of every entry is already known. */
  ghost predicate Landed(entries: seq<OverlayEntry>, known: set<Id>) {
    forall k :: 0 <= k < |entries| ==> Ids(entries[k].movements) <= known
  }

  lemma {:induction false} UnseenNone(ms: seq<Movement>, known: set<Id>)
    requires Ids(ms) <= known
    ensures Unseen(ms, known) == []
  {
    if ms != [] {
      UnseenNone(ms[..|ms| - 1], known);
    }
  }

  /** Orphans that landed add nothing: only the pending commands show. */
  lemma {:induction false} LandedOrphansAddNothing(stored: seq<Stored>, overlay: seq<OverlayEntry>, known: set<Id>)
    requires Landed(Part(stored, overlay, false), known)
    ensures Unseen(Flatten(overlay), known) == Unseen(Flatten(Part(stored, overlay, true)), known)
  {
    if overlay != [] {
      hide StockPending, Unseen, Ids;
      var front, e := overlay[..|overlay| - 1], overlay[|overlay| - 1];
      assert overlay == front + [e];
      PartPush(stored, front, e, true);
      PartPush(stored, front, e, false);
      var orphans := Part(stored, front, false);
      assert Landed(orphans, known) by {
        assert forall k :: 0 <= k < |orphans| ==> orphans[k] == Part(stored, overlay, false)[k];
      }
      LandedOrphansAddNothing(stored, front, known);
      UnseenAppend(Flatten(front), e.movements, known);
      if StockPending(stored, e.command) {
        FlattenPush(Part(stored, front, true), e);
        UnseenAppend(Flatten(Part(stored, front, true)), e.movements, known);
      } else {
        assert Part(stored, overlay, false)[|orphans|] == e;
        UnseenNone(e.movements, known);
        assert Unseen(Flatten(front), known) + [] == Unseen(Flatten(front), known);
      }
    }
  }

  lemma {:induction false} PartSource(stored: seq<Stored>, overlay: seq<OverlayEntry>, pending: bool, k: nat) returns (j: nat)
    requires k < |Part(stored, overlay, pending)|
    ensures j < |overlay| && overlay[j] == Part(stored, overlay, pending)[k]
    ensures StockPending(stored, overlay[j].command) == pending
  {
    hide StockPending;
    var front := overlay[..|overlay| - 1];
    if k < |Part(stored, front, pending)| {
      j := PartSource(stored, front, pending, k);
    } else {
      j := |front|;
    }
  }

  /** An orphan's line that has not landed shows, and is no pending command's. */
  lemma {:induction false} OrphanShows(stored: seq<Stored>, overlay: seq<OverlayEntry>, known: set<Id>, k: nat, id: Id)
    requires EntriesOk(stored, overlay) && k < |Part(stored, overlay, false)|
    requires id in Ids(Part(stored, overlay, false)[k].movements) && id !in known
    ensures id in Ids(Unseen(Flatten(overlay), known))
    ensures id !in Ids(Flatten(Part(stored, overlay, true)))
  {
    hide StockPending, Unseen, Ids, Flatten, EntriesOk, LineIds, Part;
    var j := PartSource(stored, overlay, false, k);
    FlattenHas(overlay, j);
    UnseenIds(Flatten(overlay), known);
    var owned := Part(stored, overlay, true);
    if id in Ids(Flatten(owned)) {
      var n := FlattenEntry(owned, id);
      var i := PartSource(stored, overlay, true, n);
      EntriesAt(stored, overlay, i);
      EntriesAt(stored, overlay, j);
      LinesOfDifferentCommands(overlay[i].command, |overlay[i].movements|, overlay[j].command, |overlay[j].movements|);
    }
  }

  /** What the overlay still shows is the pending commands' lines exactly when every orphan has landed. */
  lemma {:induction false} ShowsPendingIff(stored: seq<Stored>, overlay: seq<OverlayEntry>, known: set<Id>)
    requires OverlayAgrees(stored, overlay)
    ensures Unseen(Flatten(overlay), known) == Unseen(Flatten(OverlayOf(stored)), known)
      <==> Landed(Part(stored, overlay, false), known)
  {
    hide EntriesOk, Part, Unseen, Ids, Flatten, OverlayOf;
    var orphans := Part(stored, overlay, false);
    if Landed(orphans, known) {
      LandedOrphansAddNothing(stored, overlay, known);
    } else {
      var k :| 0 <= k < |orphans| && !(Ids(orphans[k].movements) <= known);
      var id :| id in Ids(orphans[k].movements) && id !in known;
      OrphanShows(stored, overlay, known, k, id);
      UnseenIds(Flatten(OverlayOf(stored)), known);
    }
  }
}
