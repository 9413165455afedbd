/**
 * What a till says of single units, and which commands it accepts: both stated over the mirror's own
 * seeds, states and movements, without the tables the till works by.
 */
module PosUnits {
  import opened Common
  import opened Ledger
  import opened PosConvergence
  import opened PosModel
  import opened PosOverlay
  import opened PosSync
  import opened Serialized

  // ---------------------------------------------------------------- the state of a unit

  /** A movement of this kind leaves its unit in this state. */
  predicate Leaves(kind: MovementType, state: UnitState) {
    || (kind in {Receipt, TransferIn, RepairIn} && state == InStock)
    || (kind == Sale && state == Sold)
    || (kind == ReturnIn && state == BackForCheck)
    || (kind == TransferOut && state == OnTheWay)
    || (kind == RepairOut && state == Broken)
    || (kind == WriteOff && state == WrittenOff)
  }

  /** The movement names the unit and says where its life goes on. */
  predicate Speaks(m: Movement, unit: Id) {
    m.unit == Some(unit) && m.kind !in {Adjustment, Reservation, Release, CountCorrection}
  }

  /** Movement `k` is the last that speaks of the unit. */
  ghost predicate LastWord(h: seq<Movement>, unit: Id, k: nat) {
    k < |h| && Speaks(h[k], unit) && forall j :: k < j < |h| ==> !Speaks(h[j], unit)
  }

  ghost predicate Silent(h: seq<Movement>, unit: Id) {
    forall k :: 0 <= k < |h| ==> !Speaks(h[k], unit)
  }

  /** The state is what the last movement to speak of the unit left it in; without one it is the state before. */
  ghost predicate Follows(h: seq<Movement>, unit: Id, before: UnitState, state: UnitState) {
    || (Silent(h, unit) && state == before)
    || exists k: nat :: LastWord(h, unit, k) && Leaves(h[k].kind, state)
  }

  lemma {:induction false} ReplayFollows(seeds: map<Id, Unit>, states: UnitStates, h: seq<Movement>, unit: Id)
    requires unit in seeds && unit in states
    ensures unit in UnitReplay(seeds, states, h)
    ensures Follows(h, unit, states[unit], UnitReplay(seeds, states, h)[unit])
  {
    if h != [] {
      var front, m := h[..|h| - 1], h[|h| - 1];
      ReplayFollows(seeds, states, front, unit);
      var state := UnitReplay(seeds, states, h)[unit];
      if Speaks(m, unit) {
        assert LastWord(h, unit, |h| - 1) && Leaves(m.kind, state);
      } else if Silent(front, unit) {
        assert Silent(h, unit);
      } else {
        var k: nat :| LastWord(front, unit, k) && Leaves(front[k].kind, state);
        assert LastWord(h, unit, k);
      }
    }
  }

  lemma SeedsStayAtStep(d: Device, e: Event)
    ensures StepDevice(d, e).mirror.seeds == d.mirror.seeds
  {
    hide Entered, Normalized, CommandError, Pulled, Pushed, Rebuilt, PendingCommands, IsPending, Ingested;
    match e
    case Append(input) =>
      hide Entered;
      AppendedIs(d, input);
      if Validates(d, input) {
        EnteredKeepsSeeds(d, Normalized(d.mirror, input, LastSeq(d.stored) + 1).value);
      }
    case Sync(results, feed, limit, pages) =>
      PushedKeepsSeeds(d, PendingCommands(d.stored), results, |PendingCommands(d.stored)|);
      RebuiltKeepsSeeds(SyncedDevice(d, results, feed, limit, pages).mirror);
      SyncedKeepsSeeds(d, results, feed, limit, pages);
    case Rebuild => RebuiltKeepsSeeds(d.mirror);
    case _ =>
  }

  lemma EnteredKeepsSeeds(d: Device, c: Command)
    ensures Entered(d, c).0.mirror.seeds == d.mirror.seeds
  {
    hide CommandToMovements, UnitReplay, HasStored;
  }

  lemma RebuiltKeepsSeeds(mi: Mirror)
    ensures Rebuilt(mi).seeds == mi.seeds
  {
    hide SortBySeq, Unseen, UnitReplay;
  }

  lemma {:induction false} PushedKeepsSeeds(d: Device, batch: seq<Command>, results: seq<PushResult>, n: nat)
    requires n <= |batch|
    ensures Pushed(d, batch, results, n).mirror.seeds == d.mirror.seeds
  {
    hide Marked, Without;
    if n > 0 {
      PushedKeepsSeeds(d, batch, results, n - 1);
    }
  }

  lemma {:induction false} SyncedKeepsSeeds(d: Device, results: seq<PushResult>, feed: seq<Posted>, limit: nat, pages: nat)
    ensures SyncedDevice(d, results, feed, limit, pages).mirror.seeds == d.mirror.seeds
  {
    hide Pushed, Pulled, SortBySeq, Unseen, UnitReplay, PendingCommands;
    PushedKeepsSeeds(d, PendingCommands(d.stored), results, |PendingCommands(d.stored)|);
  }

  lemma {:induction false} SeedsStay(d: Device, es: seq<Event>)
    ensures RunDevice(d, es).mirror.seeds == d.mirror.seeds
  {
    hide StepDevice;
    if es != [] {
      SeedsStay(d, es[..|es| - 1]);
      SeedsStayAtStep(RunDevice(d, es[..|es| - 1]), es[|es| - 1]);
    }
  }

  /** Units of a mirror that shows the feed are in the state the last movement shown left them in, or as registered. */
  lemma ShownUnits(d: Device, feed: seq<Posted>, unit: Id)
    requires Shows(d, feed) && unit in d.mirror.seeds
    ensures var shown := Inputs(feed) + Unseen(Flatten(d.mirror.overlay), Ids(Inputs(feed)));
      unit in d.mirror.states && Follows(shown, unit, d.mirror.seeds[unit].state, d.mirror.states[unit])
  {
    hide Follows, UnitReplay, Unseen, Flatten;
    var shown := Inputs(feed) + Unseen(Flatten(d.mirror.overlay), Ids(Inputs(feed)));
    ReplayFollows(d.mirror.seeds, SeedStates(d.mirror.seeds), shown, unit);
  }

  /**
   * After any run, a sync that completes leaves every registered unit in the state that the last
   * movement of the feed, or of what the overlay adds to it, left it in; or as it was registered.
   */
  lemma {:induction false} EverySyncShowsUnits(seeds: map<Id, Unit>, imeis: map<Id, Id>, es: seq<Event>,
                                               results: seq<PushResult>, feed: seq<Posted>, limit: nat, pages: nat, unit: Id)
    requires ServerRun([], es + [Sync(results, feed, limit, pages)]) && pages > |feed| && unit in seeds
    ensures var mi := RunDevice(NewDevice(seeds, imeis), es + [Sync(results, feed, limit, pages)]).mirror;
      var shown := Inputs(feed) + Unseen(Flatten(mi.overlay), Ids(Inputs(feed)));
      unit in mi.states && Follows(shown, unit, seeds[unit].state, mi.states[unit])
  {
    hide StepDevice, RunDevice, Shows, Converged, ConflictsMatch, DistinctIds, Unanswered, OrphansAfter, Landed, OrphansOf,
         ServerRun, Follows, PendingCommands, Unseen, Flatten;
    EverySyncConvergesIff(seeds, imeis, es, results, feed, limit, pages);
    SeedsStay(NewDevice(seeds, imeis), es + [Sync(results, feed, limit, pages)]);
    ShownUnits(RunDevice(NewDevice(seeds, imeis), es + [Sync(results, feed, limit, pages)]), feed, unit);
  }

  // ---------------------------------------------------------------- what the till accepts

  /** The state a known unit is in now. */
  function StateNow(mi: Mirror, unit: Id): UnitState
    requires unit in mi.seeds
  {
    if unit in mi.states then mi.states[unit] else mi.seeds[unit].state
  }

  /** A line that gives only an IMEI, where the mirror knows whose it is. */
  predicate Identifiable(mi: Mirror, line: SaleLine) {
    line.unit.None? && line.imei.Some? ==> line.imei.value in mi.imeis && mi.imeis[line.imei.value] in mi.seeds
  }

  /** The line with the unit its IMEI stands for. */
  function Meant(mi: Mirror, line: SaleLine): SaleLine
    requires Identifiable(mi, line)
  {
    if line.unit.None? && line.imei.Some? then line.(unit := Some(mi.seeds[mi.imeis[line.imei.value]].id)) else line
  }

  predicate Sellable(mi: Mirror, line: SaleLine) {
    && line.qty > 0 && line.unitPriceMinor >= 0
    && (line.unit.Some? ==>
          && line.qty == 1000
          && line.unit.value in mi.seeds && mi.seeds[line.unit.value].variant == line.variant
          && StateNow(mi, line.unit.value) in {InStock, HeldForOrder})
  }

  predicate Returnable(mi: Mirror, line: SaleLine) {
    && line.qty > 0 && line.unitPriceMinor >= 0
    && (line.unit.Some? ==> line.qty == 1000 && (line.unit.value in mi.seeds ==> StateNow(mi, line.unit.value) == Sold))
  }

  lemma SaleLineIff(mi: Mirror, line: SaleLine)
    requires line.qty > 0
    ensures SaleLineError(mi, line).None? <==> Sellable(mi, line)
    ensures SaleLineError(mi, line) == Some(InvalidShape) <==> line.unitPriceMinor < 0
    ensures SaleLineError(mi, line).Some? ==> SaleLineError(mi, line).value in {InvalidShape, SerializedRule}
  {
  }

  lemma ReturnLineIff(mi: Mirror, line: SaleLine)
    requires line.qty > 0
    ensures ReturnLineError(mi, line).None? <==> Returnable(mi, line)
    ensures ReturnLineError(mi, line) == Some(InvalidShape) <==> line.unitPriceMinor < 0
    ensures ReturnLineError(mi, line).Some? ==> ReturnLineError(mi, line).value in {InvalidShape, SerializedRule}
  {
  }

  predicate Positive(lines: seq<SaleLine>) {
    forall i :: 0 <= i < |lines| ==> lines[i].qty > 0
  }

  /** Every line is one the till sells, or takes back. */
  ghost predicate AllLinesOk(mi: Mirror, sale: bool, lines: seq<SaleLine>) {
    forall i :: 0 <= i < |lines| ==> if sale then Sellable(mi, lines[i]) else Returnable(mi, lines[i])
  }

  lemma {:induction false} LineErrorsIff(mi: Mirror, sale: bool, lines: seq<SaleLine>)
    requires Positive(lines)
    ensures FirstLineError(mi, sale, lines).None? <==> AllLinesOk(mi, sale, lines)
    ensures FirstLineError(mi, sale, lines).Some? ==> FirstLineError(mi, sale, lines).value in {InvalidShape, SerializedRule}
    ensures FirstLineError(mi, sale, lines) == Some(InvalidShape) ==>
      exists i :: 0 <= i < |lines| && lines[i].unitPriceMinor < 0
  {
    if lines != [] {
      hide SaleLineError, ReturnLineError, Sellable, Returnable;
      var front, last := lines[..|lines| - 1], lines[|lines| - 1];
      LineErrorsIff(mi, sale, front);
      SaleLineIff(mi, last);
      ReturnLineIff(mi, last);
      assert forall i :: 0 <= i < |front| ==> front[i] == lines[i];
      assert AllLinesOk(mi, sale, lines) <==> AllLinesOk(mi, sale, front) && if sale then Sellable(mi, last) else Returnable(mi, last);
    }
  }

  /** A sale or return line makes a well-shaped movement exactly when its quantity is positive. */
  lemma LineShapeIff(c: Command, i: nat)
    requires c.MovesStock() && i < |c.lines|
    ensures ShapeError(LineMovement(c, i)).None? <==> c.lines[i].qty > 0
    ensures ShapeError(LineMovement(c, i)).Some? ==> ShapeError(LineMovement(c, i)) == Some(InvalidShape)
  {
    hide LineId;
  }

  lemma {:induction false} ShapesIff(c: Command, n: nat)
    requires c.MovesStock() && n <= |c.lines|
    ensures WellShaped(FirstLines(c, n)) <==> Positive(c.lines[..n])
    ensures FirstShapeError(FirstLines(c, n)).Some? ==> FirstShapeError(FirstLines(c, n)) == Some(InvalidShape)
  {
    if n > 0 {
      hide LineMovement, ShapeError, WellShaped, FirstShapeError, Positive;
      ShapesIff(c, n - 1);
      LineShapeIff(c, n - 1);
      ShapesPush(FirstLines(c, n - 1), LineMovement(c, n - 1));
      PositivePush(c.lines[..n - 1], c.lines[n - 1]);
      assert c.lines[..n] == c.lines[..n - 1] + [c.lines[n - 1]];
    } else {
      assert FirstLines(c, 0) == [] && c.lines[..0] == [];
    }
  }

  lemma {:induction false} ShapesPush(front: seq<Movement>, m: Movement)
    ensures WellShaped(front + [m]) <==> WellShaped(front) && ShapeError(m).None?
    ensures FirstShapeError(front + [m]) == if FirstShapeError(front).Some? then FirstShapeError(front) else ShapeError(m)
  {
    hide ShapeError;
    assert (front + [m])[..|front|] == front;
  }

  lemma PositivePush(front: seq<SaleLine>, line: SaleLine)
    ensures Positive(front + [line]) <==> Positive(front) && line.qty > 0
  {
    assert (front + [line])[|front|] == line;
    assert forall i :: 0 <= i < |front| ==> (front + [line])[i] == front[i];
  }

  /** Enough on hand for what all lines of the sale need of each variant together. */
  ghost predicate Covered(mi: Mirror, location: Id, lines: seq<SaleLine>) {
    forall i :: 0 <= i < |lines| ==> Fold(mi.posted, Bucket(lines[i].variant, location, OnHand)) >= Needed(lines, lines[i].variant)
  }

  /** What the till accepts of a resolved command. */
  ghost predicate LinesAcceptable(mi: Mirror, sale: bool, location: Id, lines: seq<SaleLine>) {
    AllLinesOk(mi, sale, lines) && (sale ==> Covered(mi, location, lines))
  }

  lemma ValidIff(mi: Mirror, c: Command)
    requires c.MovesStock()
    ensures CommandError(mi, c).None? <==> LinesAcceptable(mi, c.SaleCommand?, c.location, c.lines)
    ensures match CommandError(mi, c)
      case None => true
      case Some(e) =>
        && e in {InvalidShape, SerializedRule, InsufficientStock}
        && (e == InvalidShape ==> exists i :: 0 <= i < |c.lines| && (c.lines[i].qty <= 0 || c.lines[i].unitPriceMinor < 0))
        && (e == SerializedRule ==> Positive(c.lines) && !AllLinesOk(mi, c.SaleCommand?, c.lines))
        && (e == InsufficientStock ==> c.SaleCommand? && AllLinesOk(mi, true, c.lines) && !Covered(mi, c.location, c.lines))
  {
    hide FirstLineError, FirstShapeError, Sellable, Returnable, Needed, Fold, WellShaped;
    ShapesIff(c, |c.lines|);
    assert c.lines[..|c.lines|] == c.lines;
    if Positive(c.lines) {
      LineErrorsIff(mi, c.SaleCommand?, c.lines);
    } else {
      var i :| 0 <= i < |c.lines| && c.lines[i].qty <= 0;
      NotOk(mi, c.SaleCommand?, c.lines, i);
    }
  }

  lemma NotOk(mi: Mirror, sale: bool, lines: seq<SaleLine>, i: nat)
    requires i < |lines| && lines[i].qty <= 0
    ensures !AllLinesOk(mi, sale, lines)
  {
    assert !Sellable(mi, lines[i]) && !Returnable(mi, lines[i]);
  }

  ghost predicate AllIdentifiable(mi: Mirror, lines: seq<SaleLine>) {
    forall i :: 0 <= i < |lines| ==> Identifiable(mi, lines[i])
  }

  /** The resolved lines are the lines meant, one for one. */
  ghost predicate AreMeant(mi: Mirror, lines: seq<SaleLine>, resolved: seq<SaleLine>) {
    && |resolved| == |lines|
    && forall i :: 0 <= i < |lines| ==> Identifiable(mi, lines[i]) && resolved[i] == Meant(mi, lines[i])
  }

  lemma {:induction false} ResolvesIff(mi: Mirror, lines: seq<SaleLine>)
    ensures NormalizedLines(mi, lines).Ok? <==> AllIdentifiable(mi, lines)
    ensures NormalizedLines(mi, lines).Ok? ==> AreMeant(mi, lines, NormalizedLines(mi, lines).value)
    ensures NormalizedLines(mi, lines).Err? ==> NormalizedLines(mi, lines).error == SerializedRule
  {
    if lines != [] {
      var front, last := lines[..|lines| - 1], lines[|lines| - 1];
      ResolvesIff(mi, front);
      assert forall i :: 0 <= i < |front| ==> front[i] == lines[i];
      assert AllIdentifiable(mi, lines) <==> AllIdentifiable(mi, front) && Identifiable(mi, last);
    }
  }

  // ---------------------------------------------------------------- appending

  /** No entry of the overlay, no stored command and no line already posted has the command's ids. */
  ghost predicate IsNew(d: Device, input: Command) {
    && (forall i :: 0 <= i < |d.mirror.overlay| ==> d.mirror.overlay[i].command != input.id)
    && (forall i :: 0 <= i < |d.stored| ==> d.stored[i].command.id != input.id)
    && (input.MovesStock() ==> forall i: nat :: i < |input.lines| ==> LineId(input.id, i) !in Ids(d.mirror.posted))
  }

  lemma {:induction false} HasStoredIff(stored: seq<Stored>, id: Id)
    ensures HasStored(stored, id) <==> exists i :: 0 <= i < |stored| && stored[i].command.id == id
  {
    if stored != [] {
      var front := stored[..|stored| - 1];
      HasStoredIff(front, id);
      assert forall i :: 0 <= i < |front| ==> front[i] == stored[i];
    }
  }

  lemma {:induction false} LineIdsIff(command: Id, n: nat, known: set<Id>)
    ensures LineIds(command, n) !! known <==> forall i: nat :: i < n ==> LineId(command, i) !in known
  {
    if n > 0 {
      LineIdsIff(command, n - 1, known);
    }
  }

  /** A validated command enters exactly when it is new. */
  lemma EntersIff(d: Device, c: Command)
    requires WellShaped(CommandToMovements(c))
    ensures Entered(d, c).1.Ok? <==> !HasStored(d.stored, c.id) && LineIds(c.id, LineCount(c)) !! Ids(d.mirror.posted)
    ensures Entered(d, c).1.Ok? ==> Entered(d, c).1.value == c
  {
    hide WellShaped, CommandToMovements, HasStored, LineIds, Ids;
    ValidatedAcceptance(d.mirror.posted, c);
  }

  /** One more than the highest number stored. */
  lemma {:induction false} NextSeqSays(stored: seq<Stored>)
    ensures forall i :: 0 <= i < |stored| ==> stored[i].command.seqNo <= LastSeq(stored)
    ensures LastSeq(stored) == 0 || exists i :: 0 <= i < |stored| && stored[i].command.seqNo == LastSeq(stored)
  {
    if stored != [] {
      var front := stored[..|stored| - 1];
      NextSeqSays(front);
      assert forall i :: 0 <= i < |front| ==> front[i] == stored[i];
    }
  }

  /** The command as it is queued: numbered after all others, its lines with the units meant. */
  ghost predicate QueuedAs(d: Device, input: Command, c: Command) {
    && c.id == input.id && c.location == input.location
    && (c.SaleCommand? <==> input.SaleCommand?) && (c.ReturnCommand? <==> input.ReturnCommand?)
    && c.MovesStock() && AreMeant(d.mirror, input.lines, c.lines)
    && c.seqNo > 0 && (forall i :: 0 <= i < |d.stored| ==> d.stored[i].command.seqNo < c.seqNo)
    && (c.seqNo == 1 || exists i :: 0 <= i < |d.stored| && d.stored[i].command.seqNo == c.seqNo - 1)
  }

  lemma NormalizedIff(d: Device, input: Command)
    requires input.MovesStock()
    ensures var r := Normalized(d.mirror, input, LastSeq(d.stored) + 1);
      && (r.Ok? <==> AllIdentifiable(d.mirror, input.lines))
      && (r.Ok? ==> QueuedAs(d, input, r.value))
      && (r.Err? ==> r.error == SerializedRule)
  {
    hide NormalizedLines, AllIdentifiable, AreMeant, LastSeq;
    ResolvesIff(d.mirror, input.lines);
    NextSeqSays(d.stored);
  }

  /**
   * The till accepts a sale or a return exactly when it is new, every IMEI on it is known, every line
   * is one it can sell or take back now, and a sale is covered; what it queues is the command meant.
   */
  lemma AcceptedIff(d: Device, input: Command)
    requires input.MovesStock()
    ensures Appended(d, input).1.Ok? <==>
      && IsNew(d, input) && AllIdentifiable(d.mirror, input.lines)
      && exists lines :: AreMeant(d.mirror, input.lines, lines)
                         && LinesAcceptable(d.mirror, input.SaleCommand?, input.location, lines)
    ensures Appended(d, input).1.Ok? ==>
      && QueuedAs(d, input, Appended(d, input).1.value)
      && LinesAcceptable(d.mirror, input.SaleCommand?, input.location, Appended(d, input).1.value.lines)
  {
    hide Entered, Normalized, CommandError, OverlayIds, HasStored, LineIds, LastSeq, AllIdentifiable, LinesAcceptable, AreMeant,
         HasEntry, WellShaped, CommandToMovements;
    HasStoredIff(d.stored, input.id);
    LineIdsIff(input.id, |input.lines|, Ids(d.mirror.posted));
    OverlayHasIff(d.mirror.overlay, input.id);
    NormalizedIff(d, input);
    AppendedIs(d, input);
    if input.id !in OverlayIds(d.mirror.overlay) && AllIdentifiable(d.mirror, input.lines) {
      var c := Normalized(d.mirror, input, LastSeq(d.stored) + 1).value;
      ValidIff(d.mirror, c);
      OneMeaning(d.mirror, input.lines, c.lines);
      MeantQuantities(d.mirror, input.lines, c.lines);
      if CommandError(d.mirror, c).None? {
        ValidatedShape(d.mirror, c);
        EntersIff(d, c);
      }
    }
  }

  lemma OverlayHasIff(overlay: seq<OverlayEntry>, id: Id)
    ensures id in OverlayIds(overlay) <==> exists i :: 0 <= i < |overlay| && overlay[i].command == id
  {
    if i :| 0 <= i < |overlay| && overlay[i].command == id {
      assert overlay[i] in overlay;
    }
  }

  /** The lines meant are determined. */
  lemma OneMeaning(mi: Mirror, lines: seq<SaleLine>, resolved: seq<SaleLine>)
    requires AreMeant(mi, lines, resolved)
    ensures forall other :: AreMeant(mi, lines, other) ==> other == resolved
  {
  }

  /** Some line is not one the till can sell or take back. */
  ghost predicate SomeUnfit(mi: Mirror, input: Command)
    requires input.MovesStock()
  {
    exists lines ::
      AreMeant(mi, input.lines, lines) && Positive(lines) && !AllLinesOk(mi, input.SaleCommand?, lines)
  }

  /** Every line could be sold, but not all of them together. */
  ghost predicate NotCovered(mi: Mirror, input: Command)
    requires input.MovesStock()
  {
    && input.SaleCommand?
    && exists lines ::
         AreMeant(mi, input.lines, lines) && AllLinesOk(mi, true, lines) && !Covered(mi, input.location, lines)
  }

  /** Why a sale or a return is refused, whichever reason comes first. */
  lemma RefusalSays(d: Device, input: Command)
    requires input.MovesStock() && Appended(d, input).1.Err?
    ensures match Appended(d, input).1.error
      case DuplicateMovement => !IsNew(d, input)
      case AlreadyStored => exists i :: 0 <= i < |d.stored| && d.stored[i].command.id == input.id
      case SerializedRule => !AllIdentifiable(d.mirror, input.lines) || SomeUnfit(d.mirror, input)
      case InvalidShape => exists i :: 0 <= i < |input.lines| && (input.lines[i].qty <= 0 || input.lines[i].unitPriceMinor < 0)
      case InsufficientStock => NotCovered(d.mirror, input)
      case _ => false
  {
    hide Entered, Normalized, CommandError, OverlayIds, HasStored, LineIds, LastSeq, AllIdentifiable, LinesAcceptable, AreMeant,
         HasEntry, WellShaped, CommandToMovements, AllLinesOk, Covered, Positive;
    HasStoredIff(d.stored, input.id);
    LineIdsIff(input.id, |input.lines|, Ids(d.mirror.posted));
    OverlayHasIff(d.mirror.overlay, input.id);
    NormalizedIff(d, input);
    AppendedIs(d, input);
    if input.id !in OverlayIds(d.mirror.overlay) && AllIdentifiable(d.mirror, input.lines) {
      var c := Normalized(d.mirror, input, LastSeq(d.stored) + 1).value;
      ValidIff(d.mirror, c);
      MeantQuantities(d.mirror, input.lines, c.lines);
      if CommandError(d.mirror, c).None? {
        ValidatedShape(d.mirror, c);
        RefusedEntrySays(d, c);
      }
    }
  }

  lemma MeantQuantities(mi: Mirror, lines: seq<SaleLine>, resolved: seq<SaleLine>)
    requires AreMeant(mi, lines, resolved)
    ensures |resolved| == |lines|
    ensures forall i :: 0 <= i < |lines| ==> resolved[i].qty == lines[i].qty && resolved[i].unitPriceMinor == lines[i].unitPriceMinor
  {
  }

  lemma RefusedEntrySays(d: Device, c: Command)
    requires WellShaped(CommandToMovements(c)) && Entered(d, c).1.Err?
    ensures || (Entered(d, c).1.error == DuplicateMovement && !(LineIds(c.id, LineCount(c)) !! Ids(d.mirror.posted)))
            || (Entered(d, c).1.error == AlreadyStored && HasStored(d.stored, c.id))
  {
    hide CommandToMovements, HasStored, LineIds, ShapeError, UnitReplay;
    var ms := CommandToMovements(c);
    ValidatedAcceptance(d.mirror.posted, c);
    var k := Accepted(d.mirror.posted, ms);
    if k < |ms| {
      WellShapedAt(ms, k);
    }
  }

  lemma {:induction false} WellShapedAt(ms: seq<Movement>, k: nat)
    requires WellShaped(ms) && k < |ms|
    ensures ShapeError(ms[k]).None?
  {
    if k < |ms| - 1 {
      WellShapedAt(ms[..|ms| - 1], k);
    }
  }

  /** A cash session is accepted exactly when it is new. */
  lemma CashSessionAcceptedIff(d: Device, input: Command)
    requires !input.MovesStock()
    ensures Appended(d, input).1.Ok? <==> IsNew(d, input)
  {
    hide OverlayIds, HasStored;
    HasStoredIff(d.stored, input.id);
    OverlayHasIff(d.mirror.overlay, input.id);
  }

  // ---------------------------------------------------------------- the units an accepted command names

  /** After an accepted sale every known unit on it is sold, after a return it is back to be checked; other units stay. */
  lemma {:induction false} AcceptedCommandMovesItsUnits(d: Device, input: Command, unit: Id)
    requires input.MovesStock() && Appended(d, input).1.Ok? && unit in d.mirror.seeds && unit in d.mirror.states
    ensures var lines := Appended(d, input).1.value.lines;
      var after := Appended(d, input).0.mirror.states;
      && unit in after
      && after[unit] == if exists i :: 0 <= i < |lines| && lines[i].unit == Some(unit)
                        then (if input.SaleCommand? then Sold else BackForCheck) else d.mirror.states[unit]
  {
    hide Appended, UnitReplay, Follows, HasStored;
    AcceptedAppendIsQueued(d, input);
    AcceptedKeepsKind(d, input);
    var c := Appended(d, input).1.value;
    var ms := CommandToMovements(c);
    ReplayFollows(d.mirror.seeds, d.mirror.states, ms, unit);
    NamedUnits(c, d.mirror.states[unit], UnitReplay(d.mirror.seeds, d.mirror.states, ms)[unit], unit);
    assert ms == [] ==> UnitReplay(d.mirror.seeds, d.mirror.states, ms) == d.mirror.states by { NoReplay(d.mirror.seeds, d.mirror.states); }
  }

  lemma {:induction false} NoReplay(seeds: map<Id, Unit>, states: UnitStates)
    ensures UnitReplay(seeds, states, []) == states
  {
  }

  lemma AcceptedKeepsKind(d: Device, input: Command)
    requires input.MovesStock() && Appended(d, input).1.Ok?
    ensures Appended(d, input).1.value.MovesStock() && (Appended(d, input).1.value.SaleCommand? <==> input.SaleCommand?)
  {
    hide LinesAcceptable, IsNew, AllIdentifiable, AreMeant, Appended;
    AcceptedIff(d, input);
    assert QueuedAs(d, input, Appended(d, input).1.value);
  }

  lemma NamedUnits(c: Command, before: UnitState, state: UnitState, unit: Id)
    requires c.MovesStock() && Follows(CommandToMovements(c), unit, before, state)
    ensures state == if exists i :: 0 <= i < |c.lines| && c.lines[i].unit == Some(unit)
                     then (if c.SaleCommand? then Sold else BackForCheck) else before
  {
    var ms := CommandToMovements(c);
    forall i | 0 <= i < |ms| ensures ms[i] == LineMovement(c, i) {
      FirstLinesAt(c, |c.lines|, i);
    }
    if i :| 0 <= i < |c.lines| && c.lines[i].unit == Some(unit) {
      assert Speaks(ms[i], unit);
    }
  }

  // ---------------------------------------------------------------- the stock an accepted command moves

  /** What a command does to a bucket: a sale takes off the shelf, a return goes to be checked. */
  function CommandChange(sale: bool, location: Id, lines: seq<SaleLine>, b: Bucket): int {
    if b.location != location then 0
    else if sale then (if b.state == OnHand then -Needed(lines, b.variant) else 0)
    else if b.state == ReturnedPending then Needed(lines, b.variant)
    else 0
  }

  lemma LineChange(c: Command, i: nat, b: Bucket)
    requires c.MovesStock() && i < |c.lines|
    ensures Delta(LineMovement(c, i), b) ==
      (if b.variant != c.lines[i].variant || b.location != c.location then 0
       else if c.SaleCommand? then (if b.state == OnHand then -c.lines[i].qty else 0)
       else if b.state == ReturnedPending then c.lines[i].qty else 0)
  {
    hide LineId;
  }

  lemma {:induction false} LinesFold(c: Command, k: nat, b: Bucket)
    requires c.MovesStock() && k <= |c.lines|
    ensures Fold(FirstLines(c, k), b) == CommandChange(c.SaleCommand?, c.location, c.lines[..k], b)
  {
    hide Fold, Delta, LineMovement;
    if k == 0 {
      NothingFolds(b);
    } else {
      LinesFold(c, k - 1, b);
      LineChange(c, k - 1, b);
      FoldOne(FirstLines(c, k - 1), LineMovement(c, k - 1), b);
      assert c.lines[..k][..k - 1] == c.lines[..k - 1];
    }
  }

  lemma {:induction false} NothingFolds(b: Bucket)
    ensures Fold([], b) == 0
  {
  }

  /** An accepted command changes exactly the levels its lines are about, by what they add up to. */
  lemma {:induction false} AcceptedCommandMovesStock(d: Device, input: Command, b: Bucket)
    requires input.MovesStock() && Appended(d, input).1.Ok?
    ensures var c := Appended(d, input).1.value;
      Fold(Appended(d, input).0.mirror.posted, b)
      == Fold(d.mirror.posted, b) + CommandChange(input.SaleCommand?, input.location, input.lines, b)
      && c.location == input.location
  {
    hide Appended, UnitReplay, HasStored, QueuedAs, LinesAcceptable, IsNew, AllIdentifiable;
    AcceptedAppendIsQueued(d, input);
    AcceptedKeepsKind(d, input);
    AcceptedIff(d, input);
    var c := Appended(d, input).1.value;
    QueuedLines(d, input, c);
    var ms := CommandToMovements(c);
    assert c.lines[..|c.lines|] == c.lines;
    LinesFold(c, |c.lines|, b);
    MeantNeeds(d.mirror, input.lines, c.lines, b.variant);
    FoldAppend(d.mirror.posted, ms, b);
  }

  lemma QueuedLines(d: Device, input: Command, c: Command)
    requires QueuedAs(d, input, c)
    ensures input.MovesStock() && AreMeant(d.mirror, input.lines, c.lines) && c.location == input.location
  {
  }

  lemma {:induction false} MeantNeeds(mi: Mirror, lines: seq<SaleLine>, resolved: seq<SaleLine>, variant: Id)
    requires AreMeant(mi, lines, resolved)
    ensures Needed(resolved, variant) == Needed(lines, variant)
  {
    if lines != [] {
      MeantNeeds(mi, lines[..|lines| - 1], resolved[..|resolved| - 1], variant);
    }
  }

  // ---------------------------------------------------------------- settling an answer

  /** What acting on an answer does to the log, the overlay and the conflict records, entry by entry. */
  lemma SettledSays(d: Device, c: Command, status: PushStatus)
    ensures var after := Settled(d, c, status);
      && |after.stored| == |d.stored|
      && (forall i :: 0 <= i < |d.stored| ==>
            after.stored[i] == if d.stored[i].command.id != c.id then d.stored[i]
                               else Stored(d.stored[i].command, match status
                                 case AckRejected(None) => Rejected("rejected by server")
                                 case AckRejected(Some(reason)) => Rejected(reason)
                                 case _ => Synced))
      && (forall e :: e in after.mirror.overlay <==> e in d.mirror.overlay && e.command != c.id)
      && after.mirror == d.mirror.(overlay := after.mirror.overlay) && after.cursor == d.cursor
      && after.conflicts == d.conflicts + (match status
           case AckRejected(None) => [Conflict(c, "rejected by server")]
           case AckRejected(Some(reason)) => [Conflict(c, reason)]
           case _ => [])
  {
    hide Marked, Without;
    MarkedAtEach(d.stored, c.id, MarkOf(status));
    WithoutIff(d.mirror.overlay, c.id);
  }

  lemma {:induction false} MarkedAtEach(stored: seq<Stored>, id: Id, status: CommandStatus)
    ensures |Marked(stored, id, status)| == |stored|
    ensures forall i :: 0 <= i < |stored| ==>
      Marked(stored, id, status)[i] == if stored[i].command.id == id then Stored(stored[i].command, status) else stored[i]
  {
    if stored != [] {
      MarkedAtEach(stored[..|stored| - 1], id, status);
    }
  }

  lemma {:induction false} WithoutIff(overlay: seq<OverlayEntry>, id: Id)
    ensures forall e :: e in Without(overlay, id) <==> e in overlay && e.command != id
  {
    if overlay != [] {
      var front := overlay[..|overlay| - 1];
      WithoutIff(front, id);
      assert overlay == front + [overlay[|overlay| - 1]];
    }
  }
}
