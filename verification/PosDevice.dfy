/** The point-of-sale classes, updating their fields in place, against the functions that specify them. */
module PosDevice {
  import opened Common
  import opened Ledger
  import opened PosModel
  import opened PosOverlay
  import opened PosSync
  import opened PosConvergence

  // ---------------------------------------------------------------- replaying what a rebuild holds

  lemma {:induction false} InsertShapes(h: seq<Posted>, p: Posted)
    requires WellShaped(Inputs(h)) && DistinctIds(Inputs(h))
    requires ShapeError(p.movement).None? && p.movement.id !in Ids(Inputs(h))
    ensures WellShaped(Inputs(InsertBySeq(h, p))) && DistinctIds(Inputs(InsertBySeq(h, p)))
  {
    hide ShapeError;
    if h == [] || h[|h| - 1].seqNo <= p.seqNo {
      InputsPush(h, p);
      assert (Inputs(h) + [p.movement])[..|h|] == Inputs(h);
    } else {
      var front, last := h[..|h| - 1], h[|h| - 1];
      assert h == front + [last];
      InputsPush(front, last);
      assert (Inputs(front) + [last.movement])[..|front|] == Inputs(front);
      InsertShapes(front, p);
      var r := InsertBySeq(front, p);
      InsertIds(front, p);
      InputsPush(r, last);
      assert (Inputs(r) + [last.movement])[..|r|] == Inputs(r);
    }
  }

  lemma {:induction false} SortKeepsReplayable(h: seq<Posted>)
    requires WellShaped(Inputs(h)) && DistinctIds(Inputs(h))
    ensures WellShaped(Inputs(SortBySeq(h))) && DistinctIds(Inputs(SortBySeq(h)))
  {
    hide ShapeError;
    if h != [] {
      var front, last := h[..|h| - 1], h[|h| - 1];
      assert h == front + [last];
      InputsPush(front, last);
      assert (Inputs(front) + [last.movement])[..|front|] == Inputs(front);
      SortKeepsReplayable(front);
      SortIds(front);
      InsertShapes(SortBySeq(front), last);
    }
  }

  lemma {:induction false} UnseenWellShaped(ms: seq<Movement>, known: set<Id>)
    requires WellShaped(ms)
    ensures WellShaped(Unseen(ms, known))
  {
    hide ShapeError;
    if ms != [] {
      var front := Unseen(ms[..|ms| - 1], known);
      UnseenWellShaped(ms[..|ms| - 1], known);
      assert (front + [ms[|ms| - 1]])[..|front|] == front;
    }
  }

  /** A replayable mirror's whole effective history can be posted to an empty ledger. */
  lemma EffectiveIsPostable(mi: Mirror)
    requires Replayable(mi)
    ensures DistinctIds(Effective(mi)) && WellShaped(Effective(mi))
  {
    hide ShapeError, DistinctIds, WellShaped, Unseen, Flatten, SortBySeq, Ids;
    var known, fl := Ids(Inputs(mi.history)), Flatten(mi.overlay);
    SortKeepsReplayable(mi.history);
    SortIds(mi.history);
    UnseenDistinct(fl, known);
    UnseenWellShaped(fl, known);
    UnseenIds(fl, known);
    DistinctAppend(Inputs(SortBySeq(mi.history)), Unseen(fl, known));
    WellShapedAppend(Inputs(SortBySeq(mi.history)), Unseen(fl, known));
  }

  /** In a postable list, the element after any prefix is accepted on top of that prefix. */
  lemma {:induction false} PostableNext(done: seq<Movement>, m: Movement, rest: seq<Movement>)
    requires DistinctIds(done + [m] + rest) && WellShaped(done + [m] + rest)
    ensures Refusal(done, true, m).None?
  {
    DistinctAppend(done + [m], rest);
    WellShapedAppend(done + [m], rest);
    assert (done + [m])[..|done|] == done;
  }

  lemma {:induction false} FlattenSplit(overlay: seq<OverlayEntry>, k: nat)
    requires k <= |overlay|
    ensures exists rest :: Flatten(overlay) == Flatten(overlay[..k]) + rest
  {
    if k == |overlay| {
      assert overlay[..k] == overlay;
      assert Flatten(overlay) == Flatten(overlay[..k]) + [];
    } else {
      var front := overlay[..|overlay| - 1];
      FlattenSplit(front, k);
      assert front[..k] == overlay[..k];
      var rest :| Flatten(front) == Flatten(front[..k]) + rest;
      assert Flatten(overlay) == Flatten(overlay[..k]) + (rest + overlay[|overlay| - 1].movements);
    }
  }

  lemma {:induction false} UnseenMiddle(a: seq<Movement>, m: Movement, b: seq<Movement>, known: set<Id>)
    requires m.id !in known
    ensures Unseen(a + ([m] + b), known) == Unseen(a, known) + ([m] + Unseen(b, known))
  {
    UnseenSingle(m, known);
    hide Unseen;
    UnseenAppend(a, [m] + b, known);
    UnseenAppend([m], b, known);
  }

  lemma OverlayAround(overlay: seq<OverlayEntry>, k: nat, j: nat) returns (rest: seq<Movement>)
    requires k < |overlay| && j < |overlay[k].movements|
    ensures Flatten(overlay) == Flatten(overlay[..k]) + overlay[k].movements[..j] + ([overlay[k].movements[j]] + rest)
  {
    var ms := overlay[k].movements;
    FlattenSplit(overlay, k + 1);
    assert overlay[..k + 1][..k] == overlay[..k];
    assert Flatten(overlay[..k + 1]) == Flatten(overlay[..k]) + ms;
    hide Flatten;
    var after :| Flatten(overlay) == Flatten(overlay[..k + 1]) + after;
    rest := ms[j + 1..] + after;
    assert ms == ms[..j] + ([ms[j]] + ms[j + 1..]);
  }

  lemma FlattenNext(overlay: seq<OverlayEntry>, k: nat)
    requires k < |overlay|
    ensures Flatten(overlay[..k + 1]) == Flatten(overlay[..k]) + overlay[k].movements
  {
    assert overlay[..k + 1][..k] == overlay[..k];
  }

  /** What the ledger holds once server history and this much of the overlay have been replayed. */
  function Shown(mi: Mirror, overlaid: seq<Movement>): seq<Movement> {
    Inputs(SortBySeq(mi.history)) + Unseen(overlaid, Ids(Inputs(mi.history)))
  }

  lemma ShownPush(mi: Mirror, ms: seq<Movement>, m: Movement)
    ensures Shown(mi, ms + [m]) ==
      if m.id in Ids(Inputs(mi.history)) then Shown(mi, ms) else Shown(mi, ms) + [m]
  {
    assert (ms + [m])[..|ms|] == ms;
  }

  /** The overlay movement at entry `k`, position `j`, is accepted when everything before it has been replayed. */
  lemma OverlayNext(mi: Mirror, k: nat, j: nat)
    requires Replayable(mi) && k < |mi.overlay| && j < |mi.overlay[k].movements|
    requires mi.overlay[k].movements[j].id !in Ids(Inputs(mi.history))
    ensures var ms := mi.overlay[k].movements;
      Refusal(Shown(mi, Flatten(mi.overlay[..k]) + ms[..j]), true, ms[j]).None?
  {
    hide ShapeError, DistinctIds, WellShaped, Replayable, Refusal, SortBySeq, Ids, Unseen, Flatten;
    var known, m := Ids(Inputs(mi.history)), mi.overlay[k].movements[j];
    var before := Flatten(mi.overlay[..k]) + mi.overlay[k].movements[..j];
    EffectiveIsPostable(mi);
    var rest := OverlayAround(mi.overlay, k, j);
    UnseenMiddle(before, m, rest, known);
    var base, u, tail := Inputs(SortBySeq(mi.history)), Unseen(before, known), Unseen(rest, known);
    assert base + (u + ([m] + tail)) == base + u + [m] + tail;
    PostableNext(base + u, m, tail);
  }

  lemma {:induction false} UnseenSingle(m: Movement, known: set<Id>)
    ensures Unseen([m], known) == if m.id in known then [] else [m]
  {
    assert [m][..0] == [];
  }

  lemma {:induction false} ReplayPush(seeds: map<Id, Unit>, states: UnitStates, h: seq<Movement>, m: Movement)
    ensures UnitReplay(seeds, states, h + [m]) == UnitStep(seeds, UnitReplay(seeds, states, h), m)
  {
    assert (h + [m])[..|h|] == h;
  }

  /** A device in step with a sound feed can always rebuild. */
  lemma InStepIsReplayable(d: Device, feed: seq<Posted>, history: seq<Posted>, n: nat)
    requires LogAgrees(d) && FeedOk(feed) && n <= |feed| && history == feed[..n]
    ensures Replayable(d.mirror.(history := history))
  {
    hide ShapeError, DistinctIds, WellShaped, LogOk, EntriesOk, Part, OverlayOf, Flatten, Ids, ConflictsMatch, Ascending;
    EntriesReplayable(d.stored, d.mirror.overlay);
    InputsPrefix(feed, n);
    IdsOfPrefix(Inputs(feed), n);
    assert Inputs(feed) == Inputs(feed)[..n] + Inputs(feed)[n..];
    WellShapedAppend(Inputs(feed)[..n], Inputs(feed)[n..]);
  }

  // ---------------------------------------------------------------- the mirror

  class LocalInventoryMirror {
    var serverHistory: seq<Posted>
    var serverMovementIds: set<Id>
    var optimistic: seq<OverlayEntry>
    var unitSeeds: map<Id, Unit>
    var unitStates: UnitStates
    var imeiIndex: map<Id, Id>
    var ledger: InventoryLedger

    ghost predicate Valid()
      reads this, ledger
    {
      ledger.Valid() && ledger.allowNegative && serverMovementIds == Ids(Inputs(serverHistory))
    }

    ghost function View(): Mirror
      reads this, ledger
    {
      Mirror(serverHistory, optimistic, ledger.History(), unitSeeds, unitStates, imeiIndex)
    }

    constructor ()
      ensures Valid() && fresh(ledger) && View() == Mirror([], [], [], map[], map[], map[])
    {
      ledger := new InventoryLedger(true);
      serverHistory, serverMovementIds, optimistic := [], {}, [];
      unitSeeds, unitStates, imeiIndex := map[], map[], map[];
    }

    /** Hydrate a serialized unit; a known unit or IMEI is refused and changes nothing. */
    method RegisterUnit(seed: Unit) returns (failure: Option<LedgerError>)
      requires Valid()
      modifies this
      ensures Valid() && ledger == old(ledger)
      ensures failure.Some? <==> (seed.id in old(unitSeeds)
        || (seed.imei1.Some? && seed.imei1.value in old(imeiIndex))
        || (seed.imei2.Some? && seed.imei2.value in old(imeiIndex)))
      ensures failure.Some? ==> View() == old(View())
      ensures failure.None? ==> UnitOf(View(), seed.id) == Some(seed)
      ensures failure.None? && seed.imei1.Some? ==> UnitByImei(View(), seed.imei1.value) == Some(seed)
      ensures failure.None? && seed.imei2.Some? ==> UnitByImei(View(), seed.imei2.value) == Some(seed)
    {
      if seed.id in unitSeeds {
        return Some(SerializedRule);
      }
      if (seed.imei1.Some? && seed.imei1.value in imeiIndex) || (seed.imei2.Some? && seed.imei2.value in imeiIndex) {
        return Some(DuplicateImei);
      }
      unitSeeds := unitSeeds[seed.id := seed];
      unitStates := unitStates[seed.id := seed.state];
      if seed.imei1.Some? {
        imeiIndex := imeiIndex[seed.imei1.value := seed.id];
      }
      if seed.imei2.Some? {
        imeiIndex := imeiIndex[seed.imei2.value := seed.id];
      }
      failure := None;
    }

    method FindUnit(id: Id) returns (unit: Option<Unit>)
      ensures unit == UnitOf(View(), id)
    {
      if id !in unitSeeds {
        return None;
      }
      unit := Some(unitSeeds[id].(state := if id in unitStates then unitStates[id] else unitSeeds[id].state));
    }

    method FindByImei(imei: Id) returns (unit: Option<Unit>)
      ensures unit == UnitByImei(View(), imei)
    {
      if imei !in imeiIndex {
        return None;
      }
      unit := FindUnit(imeiIndex[imei]);
    }

    /** Post a pending command's movements on top; a refusal part-way leaves the earlier ones posted. */
    method ApplyOptimistic(command: Id, ms: seq<Movement>) returns (failure: Option<LedgerError>)
      requires Valid()
      modifies this, ledger
      ensures Valid() && ledger == old(ledger)
      ensures command in OverlayIds(old(optimistic)) ==> failure == Some(DuplicateMovement) && View() == old(View())
      ensures command !in OverlayIds(old(optimistic)) ==>
        var k := Accepted(old(ledger.History()), ms);
        && View() == Applied(old(View()), command, ms)
        && failure == if k == |ms| then None else Refusal(old(ledger.History()) + ms[..k], true, ms[k])
    {
      hide Consistent, ShapeError, Refusal;
      if command in OverlayIds(optimistic) {
        return Some(DuplicateMovement);
      }
      ghost var h, states := ledger.History(), unitStates;
      var i := 0;
      while i < |ms|
        invariant 0 <= i <= |ms|
        invariant Valid() && ledger.History() == h + ms[..i]
        invariant unitStates == UnitReplay(unitSeeds, states, ms[..i])
        invariant Accepted(h, ms) == AcceptedFrom(h, ms, i)
        modifies this`unitStates, ledger
      {
        var r := ledger.Post(ms[i]);
        if r.Err? {
          return Some(r.error);
        }
        ApplyUnitState(ms[i]);
        assert ms[..i] + [ms[i]] == ms[..i + 1];
        assert h + ms[..i] + [ms[i]] == h + ms[..i + 1];
        ReplayPush(unitSeeds, states, ms[..i], ms[i]);
        i := i + 1;
      }
      optimistic := optimistic + [OverlayEntry(command, ms)];
      failure := None;
    }

    method ApplyUnitState(m: Movement)
      modifies this`unitStates
      ensures unitStates == UnitStep(unitSeeds, old(unitStates), m)
    {
      if m.unit.Some? {
        var next := StateAfter(m.kind);
        if next.Some? && m.unit.value in unitSeeds {
          unitStates := unitStates[m.unit.value := next.value];
        }
      }
    }

    /** Ingest a page of the feed, each id at most once. */
    method ApplyServerMovements(items: seq<Posted>) returns (added: nat)
      requires Valid()
      modifies this`serverHistory, this`serverMovementIds
      ensures Valid() && serverHistory == Ingested(old(serverHistory), items)
      ensures |serverHistory| == |old(serverHistory)| + added
    {
      hide Consistent;
      added := 0;
      var i := 0;
      while i < |items|
        invariant 0 <= i <= |items|
        invariant Valid()
        invariant Ingested(old(serverHistory), items) == Ingested(serverHistory, items[i..])
        invariant |serverHistory| == |old(serverHistory)| + added
      {
        var item := items[i];
        assert items[i..][0] == item && items[i..][1..] == items[i + 1..];
        if item.movement.id !in serverMovementIds {
          InputsPush(serverHistory, item);
          serverHistory := serverHistory + [item];
          serverMovementIds := serverMovementIds + {item.movement.id};
          added := added + 1;
        }
        i := i + 1;
      }
    }

    method DiscardCommand(command: Id)
      modifies this`optimistic
      ensures optimistic == Without(old(optimistic), command)
    {
      var kept: seq<OverlayEntry>, i := [], 0;
      while i < |optimistic|
        invariant 0 <= i <= |optimistic|
        invariant kept == Without(optimistic[..i], command)
      {
        if optimistic[i].command != command {
          kept := kept + [optimistic[i]];
        }
        assert optimistic[..i + 1][..i] == optimistic[..i];
        i := i + 1;
      }
      assert optimistic[..i] == optimistic;
      optimistic := kept;
    }

    /** Post one movement the ledger is known to accept. */
    method Replayed(m: Movement)
      requires Valid() && Refusal(ledger.History(), true, m).None?
      modifies this`unitStates, ledger
      ensures Valid() && ledger.History() == old(ledger.History()) + [m]
      ensures unitStates == UnitStep(unitSeeds, old(unitStates), m)
    {
      hide Consistent, Refusal, UnitStep;
      var r := ledger.Post(m);
      ApplyUnitState(m);
    }

    /** Unit states go back to their seeds and follow the server history again. */
    method ReplayUnits()
      modifies this`unitStates
      ensures unitStates == UnitReplay(unitSeeds, SeedStates(unitSeeds), Inputs(serverHistory))
    {
      hide UnitStep;
      unitStates := SeedStates(unitSeeds);
      var i := 0;
      ghost var h := Inputs(serverHistory);
      while i < |serverHistory|
        invariant 0 <= i <= |serverHistory|
        invariant unitStates == UnitReplay(unitSeeds, SeedStates(unitSeeds), h[..i])
      {
        ApplyUnitState(serverHistory[i].movement);
        assert h[..i] + [h[i]] == h[..i + 1];
        ReplayPush(unitSeeds, SeedStates(unitSeeds), h[..i], h[i]);
        i := i + 1;
      }
      assert h[..i] == h;
    }

    /** Replay server history in sequence order, then the overlay the server has not overtaken. */
    method Rebuild()
      requires Valid() && Replayable(View())
      modifies this
      ensures Valid() && fresh(ledger) && View() == Rebuilt(old(View()))
    {
      hide Consistent, DistinctIds, WellShaped, UnitReplay, SortBySeq, Flatten, Unseen, Ids, SeedStates, Inputs;
      ghost var mi := View();
      SortIds(serverHistory);
      SortKeepsReplayable(serverHistory);
      serverHistory := SortBySeq(serverHistory);
      var failure;
      ledger, failure := Replay(Inputs(serverHistory));
      ReplayUnits();
      ReplayOverlay(mi, SeedStates(unitSeeds));
    }

    /** The overlay half of a rebuild. */
    method ReplayOverlay(ghost mi: Mirror, ghost start: UnitStates)
      requires Valid() && Replayable(mi)
      requires optimistic == mi.overlay && serverMovementIds == Ids(Inputs(mi.history))
      requires ledger.History() == Inputs(SortBySeq(mi.history))
      requires unitStates == UnitReplay(unitSeeds, start, ledger.History())
      modifies this`unitStates, ledger
      ensures Valid()
      ensures ledger.History() == Effective(mi)
      ensures unitStates == UnitReplay(unitSeeds, start, Effective(mi))
    {
      hide Consistent, Replayable, SortBySeq, UnitReplay;
      var k := 0;
      assert optimistic[..0] == [] && Shown(mi, []) == ledger.History();
      while k < |optimistic|
        invariant 0 <= k <= |optimistic|
        invariant Valid()
        invariant ledger.History() == Shown(mi, Flatten(optimistic[..k]))
        invariant unitStates == UnitReplay(unitSeeds, start, ledger.History())
      {
        ReplayEntry(mi, start, k);
        k := k + 1;
      }
      assert optimistic[..k] == optimistic;
    }

    /** Post one overlay movement unless it is already authoritative. */
    method ReplayLine(ghost mi: Mirror, ghost start: UnitStates, k: nat, j: nat)
      requires Valid() && Replayable(mi)
      requires optimistic == mi.overlay && serverMovementIds == Ids(Inputs(mi.history))
      requires k < |optimistic| && j < |optimistic[k].movements|
      requires ledger.History() == Shown(mi, Flatten(optimistic[..k]) + optimistic[k].movements[..j])
      requires unitStates == UnitReplay(unitSeeds, start, ledger.History())
      modifies this`unitStates, ledger
      ensures Valid()
      ensures ledger.History() == Shown(mi, Flatten(optimistic[..k]) + optimistic[k].movements[..j + 1])
      ensures unitStates == UnitReplay(unitSeeds, start, ledger.History())
    {
      hide Consistent, Refusal, Replayable, Shown, Flatten, UnitReplay, UnitStep, Inputs, Ids;
      var m := optimistic[k].movements[j];
      ghost var done := Flatten(optimistic[..k]) + optimistic[k].movements[..j];
      assert Flatten(optimistic[..k]) + optimistic[k].movements[..j + 1] == done + [m];
      ShownPush(mi, done, m);
      if m.id !in serverMovementIds {
        OverlayNext(mi, k, j);
        ReplayPush(unitSeeds, start, ledger.History(), m);
        Replayed(m);
      }
    }

    /** Post the movements of one overlay entry, skipping those already authoritative. */
    method ReplayEntry(ghost mi: Mirror, ghost start: UnitStates, k: nat)
      requires Valid() && Replayable(mi)
      requires optimistic == mi.overlay && serverMovementIds == Ids(Inputs(mi.history)) && k < |optimistic|
      requires ledger.History() == Shown(mi, Flatten(optimistic[..k]))
      requires unitStates == UnitReplay(unitSeeds, start, ledger.History())
      modifies this`unitStates, ledger
      ensures Valid()
      ensures ledger.History() == Shown(mi, Flatten(optimistic[..k + 1]))
      ensures unitStates == UnitReplay(unitSeeds, start, ledger.History())
    {
      hide Consistent, Replayable, Shown, Flatten, UnitReplay, Inputs, Ids, SortBySeq;
      ghost var before := Flatten(optimistic[..k]);
      FlattenNext(optimistic, k);
      var j := 0;
      var ms := optimistic[k].movements;
      assert before + ms[..0] == before;
      while j < |ms|
        invariant 0 <= j <= |ms|
        invariant Valid()
        invariant ledger.History() == Shown(mi, before + ms[..j])
        invariant unitStates == UnitReplay(unitSeeds, start, ledger.History())
      {
        ReplayLine(mi, start, k, j);
        j := j + 1;
      }
      assert ms[..j] == ms;
    }
  }
}
