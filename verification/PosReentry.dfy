/**
 * A run from a new device on which a refused append changes the mirror and the next completed sync
 * does not converge: the sale of the last unit was rejected, and the till appends it again.
 */
module PosReentry {
  import opened Common
  import opened Ledger
  import opened PosConvergence
  import opened PosModel
  import opened PosOverlay
  import opened PosSync
  import opened Serialized

  const RECEIPT: Movement :=
    Movement("r", Receipt, "v", None, WHOLE, None, Some(BucketRef("l", OnHand)), Reference("grn", "g"), None)

  const FEED: seq<Posted> := [Posted(RECEIPT, 1)]

  function SaleNo(n: nat): Command {
    SaleCommand("c", n, "l", [SaleLine("v", WHOLE, 100, None, None)])
  }

  const REFUSAL: seq<PushResult> := [PushResult("c", AckRejected(Some("no")))]

  /** Pull the receipt, sell the unit, learn that the sale was rejected. */
  const RUN: seq<Event> := [Sync([], FEED, 10, 2), Append(SaleNo(1)), Sync(REFUSAL, FEED, 10, 2)]

  const LAST_SYNC: Event := Sync([], FEED, 10, 2)

  const NEW: Device := NewDevice(map[], map[])

  const MIRROR: Mirror := Mirror(FEED, [], [RECEIPT], map[], map[], map[])

  const STOCKED: Device := Device([], MIRROR, 1, [])

  /** Where the run ends: the sale is in the log as rejected, and the unit is back on hand. */
  const REJECTED: Device := Device([Stored(SaleNo(1), Rejected("no"))], MIRROR, 1, [Conflict(SaleNo(1), "no")])

  // ---------------------------------------------------------------- the feed

  lemma FeedIsOk()
    ensures FeedOk(FEED) && Inputs(FEED) == [RECEIPT] && Ids(Inputs(FEED)) == {"r"} && SortBySeq(FEED) == FEED
  {
    assert FEED[..0] == [];
    assert Inputs(FEED) == [RECEIPT] && [RECEIPT][..0] == [];
    assert ShapeError(RECEIPT) == None;
    IdsOne(RECEIPT);
    SortOfAscending(FEED);
  }

  lemma NoUnits()
    ensures SeedStates(map[]) == map[] && UnitReplay(map[], map[], [RECEIPT]) == map[]
  {
    assert [RECEIPT][..0] == [];
    assert UnitReplay(map[], map[], []) == map[];
  }

  lemma {:induction false} NothingUnseen(known: set<Id>)
    ensures Unseen(Flatten([]), known) == []
  {
  }

  /** A rebuild over the receipt and an empty overlay, whatever the ledger held before. */
  lemma RebuiltMirror(posted: seq<Movement>, states: UnitStates)
    ensures Rebuilt(Mirror(FEED, [], posted, map[], states, map[])) == MIRROR
  {
    hide UnitReplay, SeedStates, Unseen, Flatten, SortBySeq, Inputs, Ids;
    FeedIsOk();
    NoUnits();
    NothingUnseen(Ids(Inputs(FEED)));
    assert [RECEIPT] + [] == [RECEIPT];
  }

  lemma FirstPull()
    ensures Pulled(Pull([], 0, 0, true), FEED, 10, 2) == Pull(FEED, 1, 1, true)
  {
    FeedIsOk();
    assert FEED[1..] == [] && After([], 0) == [];
    assert After(FEED, 0) == FEED && Page(FEED, 0, 10) == FEED;
    assert Ingested([] + [FEED[0]], FEED[1..]) == [] + [FEED[0]];
    assert Ids(Inputs([])) == {};
    assert Ingested([], FEED) == FEED;
  }

  lemma LaterPull()
    ensures Pulled(Pull(FEED, 1, 0, true), FEED, 10, 2) == Pull(FEED, 1, 0, true)
  {
    assert FEED[1..] == [] && After([], 1) == [];
    assert After(FEED, 1) == [] && Page(FEED, 1, 10) == [];
  }

  // ---------------------------------------------------------------- the sale

  lemma LineNormalizes()
    ensures var lines := SaleNo(1).lines;
      NormalizedLine(MIRROR, lines[0]) == Ok(lines[0]) && NormalizedLines(MIRROR, []) == Ok([])
  {
  }

  lemma SaleNormalizes(n: nat)
    ensures Normalized(MIRROR, SaleNo(1), n) == Ok(SaleNo(n))
  {
    hide NormalizedLine;
    LineNormalizes();
    var lines := SaleNo(1).lines;
    assert lines[..0] == [] && [] + [lines[0]] == lines;
    assert NormalizedLines(MIRROR, lines) == Ok(lines);
  }

  lemma SaleIsCovered(n: nat)
    ensures !Short(MIRROR, "l", SaleNo(n).lines)
  {
    var lines := SaleNo(n).lines;
    assert lines[..0] == [] && MIRROR.posted[..0] == [];
    assert Fold(MIRROR.posted, Bucket("v", "l", OnHand)) == WHOLE;
    assert Needed(lines, "v") == WHOLE;
  }

  lemma SaleShapes(n: nat)
    ensures FirstShapeError(CommandToMovements(SaleNo(n))) == None
  {
    var ms := CommandToMovements(SaleNo(n));
    assert ms[..0] == [] && ShapeError(ms[0]) == None;
    assert FirstShapeError([]) == None;
  }

  lemma SaleLines(n: nat)
    ensures FirstLineError(MIRROR, true, SaleNo(n).lines) == None
  {
    var lines := SaleNo(n).lines;
    assert lines[..0] == [] && SaleLineError(MIRROR, lines[0]) == None;
    assert FirstLineError(MIRROR, true, []) == None;
  }

  lemma SaleValidates(n: nat)
    ensures CommandError(MIRROR, SaleNo(n)) == None
  {
    hide FirstShapeError, FirstLineError, Short, CommandToMovements;
    SaleShapes(n);
    SaleLines(n);
    SaleIsCovered(n);
  }

  lemma SaleIsNew(n: nat)
    ensures LineIds("c", 1) !! Ids(MIRROR.posted) && LineIds("c", LineCount(SaleNo(n))) == LineIds("c", 1)
    ensures LineId("c", 0) in LineIds("c", 1) && LineId("c", 0) !in Ids(MIRROR.posted)
  {
    assert LineId("c", 0)[0] == 'c';
    IdsOne(RECEIPT);
    assert LineIds("c", 1) == LineIds("c", 0) + {LineId("c", 0)};
  }

  // ---------------------------------------------------------------- the run, step by step

  lemma AfterFirstSync()
    ensures SyncedDevice(NEW, [], FEED, 10, 2) == STOCKED
  {
    assert SeedStates(map[]) == map[];
    assert PendingCommands([]) == [] && Pushed(NEW, [], [], 0) == NEW;
    FirstPull();
    RebuiltMirror([], map[]);
  }

  lemma SaleIsAccepted()
    ensures Appended(STOCKED, SaleNo(1)).1 == Ok(SaleNo(1))
  {
    hide Normalized, CommandError, CommandToMovements, Applied;
    SaleNormalizes(1);
    SaleValidates(1);
    SaleIsNew(1);
    ValidatedShape(MIRROR, SaleNo(1));
    ValidatedAcceptance(MIRROR.posted, SaleNo(1));
    assert LastSeq(STOCKED.stored) == 0 && OverlayIds([]) == {};
  }

  /** With the sale queued. */
  function Sold(): Device {
    var c := SaleNo(1);
    Device([Stored(c, Pending)], WithMovements(MIRROR, "c", CommandToMovements(c)), 1, [])
  }

  lemma AfterSale()
    ensures Appended(STOCKED, SaleNo(1)).0 == Sold()
  {
    hide Appended, CommandToMovements;
    SaleIsAccepted();
    AcceptedAppendIsQueued(STOCKED, SaleNo(1));
    assert [] + [Stored(SaleNo(1), Pending)] == [Stored(SaleNo(1), Pending)];
  }

  lemma SaleIsPending()
    ensures PendingCommands(Sold().stored) == [SaleNo(1)] && Marked(Sold().stored, "c", Rejected("no")) == REJECTED.stored
  {
    hide CommandToMovements;
    var stored := Sold().stored;
    assert stored[..0] == [] && PendingCommands([]) == [] && Marked([], "c", Rejected("no")) == [];
    assert [] + [SaleNo(1)] == [SaleNo(1)];
  }

  lemma SaleIsDiscarded()
    ensures Without(Sold().mirror.overlay, "c") == [] && CommandToMovements(SaleNo(1)) != []
  {
    hide UnitReplay;
    var e := OverlayEntry("c", CommandToMovements(SaleNo(1)));
    assert Sold().mirror.overlay == [] + [e] && ([] + [e])[..0] == [] && Without([], "c") == [];
  }

  lemma SaleIsSettled()
    ensures PendingCommands(Sold().stored) == [SaleNo(1)]
    ensures Pushed(Sold(), [SaleNo(1)], REFUSAL, 1) ==
      Device(REJECTED.stored, WithMovements(MIRROR, "c", CommandToMovements(SaleNo(1))).(overlay := []), 1, REJECTED.conflicts)
  {
    hide CommandToMovements, Marked, Without, PendingCommands, WithMovements;
    SaleIsPending();
    SaleIsDiscarded();
    assert ResultFor(REFUSAL, "c") == Some(AckRejected(Some("no")));
    assert Pushed(Sold(), [SaleNo(1)], REFUSAL, 0) == Sold();
    assert [] + [Conflict(SaleNo(1), "no")] == REJECTED.conflicts;
  }

  lemma AfterRefusal()
    ensures SyncedDevice(Sold(), REFUSAL, FEED, 10, 2) == REJECTED
  {
    hide Pulled, Rebuilt, CommandToMovements, Pushed;
    SaleIsSettled();
    LaterPull();
    RebuiltMirror(Sold().mirror.posted, Sold().mirror.states);
  }

  /** The device is reachable. */
  lemma RunReaches()
    ensures RunDevice(NEW, RUN) == REJECTED && ServerRun([], RUN) && RunFeed([], RUN) == FEED
  {
    hide SyncedDevice, Appended, FeedOk, Sold;
    FeedIsOk();
    AfterFirstSync();
    AfterSale();
    AfterRefusal();
    var two, one := RUN[..2], RUN[..1];
    assert RUN[..|RUN| - 1] == two && two[..|two| - 1] == one && one[..|one| - 1] == [];
    assert RunDevice(NEW, []) == NEW && RunFeed([], []) == [];
    assert RunDevice(NEW, one) == STOCKED && RunFeed([], one) == FEED;
    assert RunDevice(NEW, two) == Sold() && RunFeed([], two) == FEED;
    assert Grows([], FEED) && Grows(FEED, FEED);
    assert ServerRun([], one) && ServerRun([], two);
  }

  lemma SaleReenters()
    ensures Contaminates(REJECTED, SaleNo(1)) && Reenters(REJECTED, SaleNo(1)) && LastSeq(REJECTED.stored) == 1
  {
    hide Normalized, CommandError, CommandToMovements;
    assert REJECTED.stored[..0] == [] && REJECTED.stored[0].command.id == "c";
    SaleNormalizes(2);
    SaleValidates(2);
    SaleIsNew(2);
  }

  lemma MirrorIsFresh()
    ensures Fresh(MIRROR)
  {
    hide UnitReplay, SeedStates, Unseen, Flatten, SortBySeq, Inputs, Ids;
    FeedIsOk();
    NoUnits();
    NothingUnseen(Ids(Inputs(FEED)));
    assert [RECEIPT] + [] == [RECEIPT];
  }

  /** A reachable, freshly rebuilt device on which a refused append changes the mirror. */
  lemma ContaminationHappens()
    ensures REJECTED == RunDevice(NewDevice(map[], map[]), RUN) && ServerRun([], RUN)
    ensures Fresh(REJECTED.mirror) && Contaminates(REJECTED, SaleNo(1))
    ensures Appended(REJECTED, SaleNo(1)).1 == Err(AlreadyStored)
    ensures Appended(REJECTED, SaleNo(1)).0 != REJECTED
  {
    hide RunDevice, ServerRun, Fresh, Appended, Reenters, Contaminates;
    RunReaches();
    MirrorIsFresh();
    SaleReenters();
    SaleIsNew(1);
    ContaminatedSaleTakesStock(REJECTED, SaleNo(1), "v");
    RefusedAppendChangesNothingIff(REJECTED, SaleNo(1));
  }

  /** The run with the sale appended again. */
  function Again(): seq<Event> {
    RUN + [Append(SaleNo(1))]
  }

  lemma AgainReaches()
    ensures RunDevice(NEW, Again()) == Appended(REJECTED, SaleNo(1)).0 && RunFeed([], Again()) == FEED
    ensures ServerRun([], Again() + [LAST_SYNC])
  {
    hide Appended, SyncedDevice, FeedOk, ServerRun;
    var es, all := Again(), Again() + [LAST_SYNC];
    assert es[..|es| - 1] == RUN && all[..|all| - 1] == es;
    RunReaches();
    FeedIsOk();
    assert Grows(FEED, FEED);
    StillServed(RUN, Append(SaleNo(1)));
    StillServed(es, LAST_SYNC);
  }

  lemma {:induction false} StillServed(es: seq<Event>, e: Event)
    requires ServerRun([], es) && ServerOk(RunFeed([], es), e)
    ensures ServerRun([], es + [e])
  {
    hide ServerOk;
    assert (es + [e])[..|es|] == es;
  }

  lemma AgainOrphans()
    ensures LogAgrees(REJECTED)
    ensures LastSeq(REJECTED.stored) == 1 && Normalized(MIRROR, SaleNo(1), 2).Ok?
    ensures !Landed(OrphansOf(Appended(REJECTED, SaleNo(1)).0), Ids(Inputs(FEED)))
  {
    hide Appended, Normalized, Reenters, CommandToMovements, LogAgrees, Part, RunDevice, ServerRun, Ids;
    RunReaches();
    RunKeepsDeviceOk(map[], map[], RUN);
    SaleReenters();
    AppendOrphans(REJECTED, SaleNo(1));
    EntryIsMissing();
    var before, after := OrphansOf(REJECTED), OrphansOf(Appended(REJECTED, SaleNo(1)).0);
    assert after[|before|] == EntryOf(REJECTED, SaleNo(1));
  }

  /** From a new device to a completed sync that does not converge. */
  lemma SyncNeedNotConverge()
    ensures ServerRun([], Again() + [LAST_SYNC])
    ensures !Converged(RunDevice(NewDevice(map[], map[]), Again() + [LAST_SYNC]), FEED)
  {
    hide Appended, StepDevice, Converged, Shows, LogAgrees, OrphansOf, RunDevice, ServerRun, Landed, ConflictsMatch, DistinctIds, Again,
         Ids, Inputs;
    AgainReaches();
    AgainOrphans();
    AppendKeepsStored();
    EverySyncConvergesIff(map[], map[], Again(), [], FEED, 10, 2);
    assert PendingCommands(REJECTED.stored) == [] by { assert REJECTED.stored[..0] == []; }
  }

  lemma AppendKeepsStored()
    ensures Appended(REJECTED, SaleNo(1)).0.stored == REJECTED.stored
  {
    hide Normalized, CommandError, CommandToMovements, Applied, Reenters;
    SaleReenters();
    SaleNormalizes(2);
    assert HasStored(REJECTED.stored, "c");
  }

  lemma EntryIsMissing()
    ensures LastSeq(REJECTED.stored) == 1 && Normalized(MIRROR, SaleNo(1), 2).Ok?
    ensures !(Ids(EntryOf(REJECTED, SaleNo(1)).movements) <= Ids(Inputs(FEED)))
  {
    hide Normalized, CommandToMovements, Ids;
    SaleReenters();
    SaleNormalizes(2);
    FeedIsOk();
    CommandMovements(SaleNo(2));
    SaleIsNew(2);
    assert LineId("c", 0) != "r" by { assert LineId("c", 0)[0] == 'c'; }
  }
}
