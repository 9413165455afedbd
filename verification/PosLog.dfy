/** The offline command log and the sync engine, working in place, against the functions that specify them. */
module PosLog {
  import opened Common
  import opened Ledger
  import opened PosModel
  import opened PosOverlay
  import opened Serialized
  import opened PosSync
  import opened PosConvergence
  import opened PosDevice

  // ---------------------------------------------------------------- the store

  /** The store is a Map keyed by command id. */
  predicate UniqueCommands(stored: seq<Stored>) {
    stored == [] || (
      UniqueCommands(stored[..|stored| - 1]) && !HasStored(stored[..|stored| - 1], stored[|stored| - 1].command.id))
  }

  /** With unique ids, updating the one entry found by key is marking by id. */
  lemma {:induction false} MarkedAt(stored: seq<Stored>, k: nat, status: CommandStatus)
    requires UniqueCommands(stored) && k < |stored|
    ensures Marked(stored, stored[k].command.id, status) == stored[k := stored[k].(status := status)]
  {
    var front, last := stored[..|stored| - 1], stored[|stored| - 1];
    if k == |front| {
      MarkedAbsent(front, last.command.id, status);
    } else {
      MarkedAt(front, k, status);
      HasStoredAt(front, k, last.command.id);
    }
  }

  lemma {:induction false} PendingAreStored(stored: seq<Stored>, k: nat)
    requires k < |PendingCommands(stored)|
    ensures PendingCommands(stored)[k].seqNo <= LastSeq(stored)
  {
    if k < |PendingCommands(stored[..|stored| - 1])| {
      PendingAreStored(stored[..|stored| - 1], k);
    }
  }

  /** Listing in append order is listing in local sequence order, so the store's sort moves nothing. */
  lemma {:induction false} PendingInSequence(stored: seq<Stored>, i: nat, j: nat)
    requires LogOk(stored) && i < j < |PendingCommands(stored)|
    ensures PendingCommands(stored)[i].seqNo < PendingCommands(stored)[j].seqNo
  {
    hide WellShaped;
    var front := PendingCommands(stored[..|stored| - 1]);
    if j < |front| {
      PendingInSequence(stored[..|stored| - 1], i, j);
    } else {
      PendingAreStored(stored[..|stored| - 1], i);
    }
  }

  class CommandStore {
    var entries: seq<Stored>

    ghost predicate Valid()
      reads this
    {
      UniqueCommands(entries)
    }

    constructor ()
      ensures Valid() && entries == []
    {
      entries := [];
    }

    method Append(c: Command) returns (failure: Option<LedgerError>)
      requires Valid()
      modifies this
      ensures Valid()
      ensures HasStored(old(entries), c.id) ==> failure == Some(AlreadyStored) && entries == old(entries)
      ensures !HasStored(old(entries), c.id) ==> failure.None? && entries == old(entries) + [Stored(c, Pending)]
    {
      if HasStored(entries, c.id) {
        return Some(AlreadyStored);
      }
      entries := entries + [Stored(c, Pending)];
      assert entries[..|entries| - 1] == old(entries);
      failure := None;
    }

    method ListPending() returns (pending: seq<Command>)
      ensures pending == PendingCommands(entries)
    {
      pending := [];
      var i := 0;
      while i < |entries|
        invariant 0 <= i <= |entries|
        invariant pending == PendingCommands(entries[..i])
      {
        if entries[i].status == Pending {
          pending := pending + [entries[i].command];
        }
        assert entries[..i + 1][..i] == entries[..i];
        i := i + 1;
      }
      assert entries[..i] == entries;
    }

    method LastSequence() returns (last: nat)
      ensures last == LastSeq(entries)
    {
      last := 0;
      var i := 0;
      while i < |entries|
        invariant 0 <= i <= |entries|
        invariant last == LastSeq(entries[..i])
      {
        if last < entries[i].command.seqNo {
          last := entries[i].command.seqNo;
        }
        assert entries[..i + 1][..i] == entries[..i];
        i := i + 1;
      }
      assert entries[..i] == entries;
    }

    /** Set one entry's status in place; an unknown id is refused. */
    method Mark(id: Id, status: CommandStatus) returns (known: bool)
      requires Valid()
      modifies this
      ensures known == HasStored(old(entries), id)
      ensures entries == Marked(old(entries), id, status)
    {
      var i := 0;
      while i < |entries| && entries[i].command.id != id
        invariant 0 <= i <= |entries|
        invariant !HasStored(entries[..i], id)
      {
        assert entries[..i + 1][..i] == entries[..i];
        i := i + 1;
      }
      if i == |entries| {
        assert entries[..i] == entries;
        MarkedAbsent(entries, id, status);
        return false;
      }
      MarkedAt(entries, i, status);
      StoredHas(entries, i);
      entries := entries[i := entries[i].(status := status)];
      known := true;
    }
  }

  // ---------------------------------------------------------------- appending

  function Variants(lines: seq<SaleLine>): set<Id> {
    if lines == [] then {} else Variants(lines[..|lines| - 1]) + {lines[|lines| - 1].variant}
  }

  lemma {:induction false} NeededAbsent(lines: seq<SaleLine>, variant: Id)
    requires variant !in Variants(lines)
    ensures Needed(lines, variant) == 0
  {
    if lines != [] {
      NeededAbsent(lines[..|lines| - 1], variant);
    }
  }

  lemma {:induction false} VariantsAt(lines: seq<SaleLine>, i: nat)
    requires i < |lines|
    ensures lines[i].variant in Variants(lines)
  {
    if i < |lines| - 1 {
      VariantsAt(lines[..|lines| - 1], i);
    }
  }

  lemma {:induction false} VariantsIndex(lines: seq<SaleLine>, variant: Id) returns (i: nat)
    requires variant in Variants(lines)
    ensures i < |lines| && lines[i].variant == variant
  {
    if lines[|lines| - 1].variant == variant {
      i := |lines| - 1;
    } else {
      i := VariantsIndex(lines[..|lines| - 1], variant);
    }
  }

  /** A sale is short when one of the variants it sells is. */
  lemma {:induction false} ShortIff(mi: Mirror, location: Id, lines: seq<SaleLine>)
    ensures Short(mi, location, lines) <==>
      exists v :: v in Variants(lines) && LevelOf(mi, v, location, OnHand) < Needed(lines, v)
  {
    hide Variants, Needed, LevelOf;
    if Short(mi, location, lines) {
      var i :| 0 <= i < |lines| && LevelOf(mi, lines[i].variant, location, OnHand) < Needed(lines, lines[i].variant);
      VariantsAt(lines, i);
    }
    if v :| v in Variants(lines) && LevelOf(mi, v, location, OnHand) < Needed(lines, v) {
      var i := VariantsIndex(lines, v);
    }
  }

  lemma {:induction false} FirstLineErrorStep(mi: Mirror, sale: bool, lines: seq<SaleLine>, i: nat)
    requires i < |lines| && FirstLineError(mi, sale, lines[..i]).None?
    ensures FirstLineError(mi, sale, lines[..i + 1]) ==
      if sale then SaleLineError(mi, lines[i]) else ReturnLineError(mi, lines[i])
  {
    assert lines[..i + 1][..i] == lines[..i];
  }

  lemma {:induction false} FirstLineErrorSticks(mi: Mirror, sale: bool, lines: seq<SaleLine>, k: nat)
    requires k <= |lines| && FirstLineError(mi, sale, lines[..k]).Some?
    ensures FirstLineError(mi, sale, lines) == FirstLineError(mi, sale, lines[..k])
  {
    hide SaleLineError, ReturnLineError;
    if k == |lines| {
      assert lines[..k] == lines;
    } else {
      assert lines[..|lines| - 1][..k] == lines[..k];
      FirstLineErrorSticks(mi, sale, lines[..|lines| - 1], k);
    }
  }

  lemma {:induction false} FirstShapeErrorSticks(ms: seq<Movement>, k: nat)
    requires k <= |ms| && FirstShapeError(ms[..k]).Some?
    ensures FirstShapeError(ms) == FirstShapeError(ms[..k])
  {
    hide ShapeError;
    if k == |ms| {
      assert ms[..k] == ms;
    } else {
      assert ms[..|ms| - 1][..k] == ms[..k];
      FirstShapeErrorSticks(ms[..|ms| - 1], k);
    }
  }

  lemma ShapeErrorStep(ms: seq<Movement>, i: nat)
    requires i < |ms| && FirstShapeError(ms[..i]).None?
    ensures FirstShapeError(ms[..i + 1]) == ShapeError(ms[i])
  {
    assert ms[..i + 1][..i] == ms[..i];
  }

  lemma {:induction false} NothingChecked(mi: Mirror, sale: bool, lines: seq<SaleLine>, ms: seq<Movement>)
    ensures FirstShapeError(ms[..0]).None? && FirstLineError(mi, sale, lines[..0]).None?
    ensures NormalizedLines(mi, lines[..0]) == Ok([])
  {
  }

  lemma {:induction false} NormalizedStep(mi: Mirror, lines: seq<SaleLine>, i: nat, done: seq<SaleLine>)
    requires i < |lines| && NormalizedLines(mi, lines[..i]) == Ok(done)
    ensures NormalizedLines(mi, lines[..i + 1]) ==
      match NormalizedLine(mi, lines[i]) case Err(e) => Err(e) case Ok(line) => Ok(done + [line])
  {
    assert lines[..i + 1][..i] == lines[..i];
  }

  lemma {:induction false} NormalizedSticks(mi: Mirror, lines: seq<SaleLine>, k: nat)
    requires k <= |lines| && NormalizedLines(mi, lines[..k]).Err?
    ensures NormalizedLines(mi, lines) == NormalizedLines(mi, lines[..k])
  {
    hide NormalizedLine;
    if k == |lines| {
      assert lines[..k] == lines;
    } else {
      assert lines[..|lines| - 1][..k] == lines[..k];
      NormalizedSticks(mi, lines[..|lines| - 1], k);
    }
  }

  /** `CommandLog`: validates against the mirror, applies optimistically, then queues. */
  class CommandLog {
    const store: CommandStore
    const mirror: LocalInventoryMirror

    ghost predicate Valid()
      reads this, store, mirror, mirror.ledger
    {
      store.Valid() && mirror.Valid()
    }

    constructor (store: CommandStore, mirror: LocalInventoryMirror)
      ensures this.store == store && this.mirror == mirror
    {
      this.store := store;
      this.mirror := mirror;
    }

    method CheckShapes(ms: seq<Movement>) returns (failure: Option<LedgerError>)
      ensures failure == FirstShapeError(ms)
    {
      hide ShapeError, FirstShapeError;
      var i := 0;
      assert FirstShapeError(ms[..0]).None? by { NothingChecked(mirror.View(), true, [], ms); }
      while i < |ms|
        invariant 0 <= i <= |ms|
        invariant FirstShapeError(ms[..i]).None?
      {
        failure := ShapeError(ms[i]);
        assert FirstShapeError(ms[..i + 1]) == failure by { ShapeErrorStep(ms, i); }
        if failure.Some? {
          FirstShapeErrorSticks(ms, i + 1);
          return;
        }
        i := i + 1;
      }
      assert ms[..i] == ms;
      failure := None;
    }

    /** The per-line rules of a sale or a return, in line order. */
    method CheckLines(sale: bool, lines: seq<SaleLine>) returns (failure: Option<LedgerError>)
      requires mirror.Valid()
      ensures failure == FirstLineError(mirror.View(), sale, lines)
    {
      hide FirstLineError;
      var i := 0;
      ghost var mi := mirror.View();
      assert FirstLineError(mi, sale, lines[..0]).None? by { NothingChecked(mi, sale, lines, []); }
      while i < |lines|
        invariant 0 <= i <= |lines|
        invariant FirstLineError(mi, sale, lines[..i]).None?
      {
        FirstLineErrorStep(mi, sale, lines, i);
        failure := CheckLine(sale, lines[i]);
        if failure.Some? {
          FirstLineErrorSticks(mi, sale, lines, i + 1);
          return;
        }
        i := i + 1;
      }
      assert lines[..i] == lines;
      failure := None;
    }

    method CheckLine(sale: bool, line: SaleLine) returns (failure: Option<LedgerError>)
      requires mirror.Valid()
      ensures failure == if sale then SaleLineError(mirror.View(), line) else ReturnLineError(mirror.View(), line)
    {
      if line.unitPriceMinor < 0 {
        return Some(InvalidShape);
      }
      if line.unit.None? {
        return None;
      }
      if line.qty != WHOLE {
        return Some(SerializedRule);
      }
      var unit := mirror.FindUnit(line.unit.value);
      if unit.None? {
        return if sale then Some(SerializedRule) else None;
      }
      if sale && unit.value.variant != line.variant {
        return Some(SerializedRule);
      }
      if !CanTransition(unit.value.state, if sale then Sold else BackForCheck) {
        return Some(SerializedRule);
      }
      return None;
    }

    /** Resolve IMEI-only lines to their unit, line by line. */
    method ResolveLines(lines: seq<SaleLine>) returns (r: Result<seq<SaleLine>, LedgerError>)
      requires mirror.Valid()
      ensures r == NormalizedLines(mirror.View(), lines)
    {
      hide Consistent, NormalizedLines;
      var resolved: seq<SaleLine>, i := [], 0;
      ghost var mi := mirror.View();
      assert NormalizedLines(mi, lines[..0]) == Ok([]) by { NothingChecked(mi, true, lines, []); }
      while i < |lines|
        invariant 0 <= i <= |lines|
        invariant NormalizedLines(mi, lines[..i]) == Ok(resolved)
      {
        NormalizedStep(mi, lines, i, resolved);
        var line := lines[i];
        if line.unit.None? && line.imei.Some? {
          var unit := mirror.FindByImei(line.imei.value);
          if unit.None? {
            NormalizedSticks(mi, lines, i + 1);
            return Err(SerializedRule);
          }
          line := line.(unit := Some(unit.value.id));
        }
        resolved := resolved + [line];
        i := i + 1;
      }
      assert lines[..i] == lines;
      r := Ok(resolved);
    }

    method Normalize(input: Command, seqNo: nat) returns (r: Result<Command, LedgerError>)
      requires mirror.Valid()
      ensures r == Normalized(mirror.View(), input, seqNo)
    {
      hide Consistent, NormalizedLines;
      match input
      case CashSessionOpen(id, _, location, amount) => r := Ok(CashSessionOpen(id, seqNo, location, amount));
      case CashSessionClose(id, _, location, amount) => r := Ok(CashSessionClose(id, seqNo, location, amount));
      case SaleCommand(id, _, location, lines) =>
        var resolved := ResolveLines(lines);
        r := if resolved.Err? then Err(resolved.error) else Ok(SaleCommand(id, seqNo, location, resolved.value));
      case ReturnCommand(id, _, location, lines) =>
        var resolved := ResolveLines(lines);
        r := if resolved.Err? then Err(resolved.error) else Ok(ReturnCommand(id, seqNo, location, resolved.value));
    }

    /** Add up what each variant of the sale needs. */
    method AddUp(lines: seq<SaleLine>) returns (needed: map<Id, int>)
      ensures needed.Keys == Variants(lines)
      ensures forall v :: v in needed ==> needed[v] == Needed(lines, v)
    {
      needed := map[];
      var i := 0;
      assert lines[..0] == [];
      while i < |lines|
        invariant 0 <= i <= |lines|
        invariant needed.Keys == Variants(lines[..i])
        invariant forall v :: v in needed ==> needed[v] == Needed(lines[..i], v)
      {
        var v := lines[i].variant;
        assert lines[..i + 1][..i] == lines[..i];
        if v !in needed {
          NeededAbsent(lines[..i], v);
        }
        needed := needed[v := (if v in needed then needed[v] else 0) + lines[i].qty];
        i := i + 1;
      }
      assert lines[..i] == lines;
    }

    /** Quantity over the whole sale: every variant must be covered by the mirror's on-hand level. */
    method CheckQuantities(location: Id, lines: seq<SaleLine>) returns (short: bool)
      requires mirror.Valid()
      ensures short <==> Short(mirror.View(), location, lines)
    {
      hide Consistent, Fold, Needed, Short, Variants;
      var needed := AddUp(lines);
      var rest := needed.Keys;
      ghost var mi := mirror.View();
      ShortIff(mi, location, lines);
      while rest != {}
        invariant rest <= needed.Keys
        invariant forall v :: v in needed.Keys - rest ==> LevelOf(mi, v, location, OnHand) >= Needed(lines, v)
        decreases |rest|
      {
        var v :| v in rest;
        var have := mirror.ledger.Level(v, location, OnHand);
        if have < needed[v] {
          return true;
        }
        rest := rest - {v};
      }
      short := false;
    }

    method Validate(c: Command) returns (failure: Option<LedgerError>)
      requires mirror.Valid()
      ensures failure == CommandError(mirror.View(), c)
    {
      hide Consistent, FirstShapeError, FirstLineError, Short, CommandToMovements;
      failure := CheckShapes(CommandToMovements(c));
      if failure.Some? || !c.MovesStock() {
        return;
      }
      failure := CheckLines(c.SaleCommand?, c.lines);
      if failure.Some? || !c.SaleCommand? {
        return;
      }
      var short := CheckQuantities(c.location, c.lines);
      failure := if short then Some(InsufficientStock) else None;
    }

    /** What the log and mirror hold, as one device value. */
    ghost function View(cursor: int, conflicts: seq<Conflict>): Device
      reads this, store, mirror, mirror.ledger
    {
      Device(store.entries, mirror.View(), cursor, conflicts)
    }

    /** After validation: mirror first, then the log. */
    method Enter(c: Command, ghost cursor: int, ghost conflicts: seq<Conflict>) returns (r: Result<Command, LedgerError>)
      requires Valid() && c.id !in OverlayIds(mirror.optimistic)
      modifies store, mirror, mirror.ledger
      ensures Valid() && mirror.ledger == old(mirror.ledger)
      ensures (View(cursor, conflicts), r) == Entered(old(View(cursor, conflicts)), c)
    {
      hide Consistent, Applied, CommandToMovements, Refusal, AcceptedFrom, OverlayIds;
      var ms := CommandToMovements(c);
      if ms != [] {
        var failure := mirror.ApplyOptimistic(c.id, ms);
        if failure.Some? {
          return Err(failure.value);
        }
      } else {
        assert Accepted(old(mirror.ledger.History()), ms) == |ms|;
      }
      var failure := store.Append(c);
      r := if failure.Some? then Err(failure.value) else Ok(c);
    }

    method Append(input: Command, ghost cursor: int, ghost conflicts: seq<Conflict>)
      returns (r: Result<Command, LedgerError>)
      requires Valid()
      modifies store, mirror, mirror.ledger
      ensures Valid() && mirror.ledger == old(mirror.ledger)
      ensures (View(cursor, conflicts), r) == Appended(old(View(cursor, conflicts)), input)
    {
      hide Consistent, Entered, Normalized, CommandError, OverlayIds;
      if input.id in OverlayIds(mirror.optimistic) {
        return Err(DuplicateMovement);
      }
      var last := store.LastSequence();
      var normal := Normalize(input, last + 1);
      if normal.Err? {
        return Err(normal.error);
      }
      var c := normal.value;
      NormalizedKeeps(mirror.View(), input, last + 1);
      var failure := Validate(c);
      if failure.Some? {
        return Err(failure.value);
      }
      r := Enter(c, cursor, conflicts);
    }
  }

  // ---------------------------------------------------------------- syncing

  predicate IsApplied(status: PushStatus) {
    status.AckApplied?
  }

  predicate IsDuplicate(status: PushStatus) {
    status.AckDuplicate?
  }

  predicate IsRejected(status: PushStatus) {
    status.AckRejected?
  }

  /** A command of the batch that has not been settled yet is still in the log. */
  lemma {:induction false} BatchStaysStored(d: Device, results: seq<PushResult>, n: nat)
    requires LogAgrees(d) && n < |PendingCommands(d.stored)|
    ensures var batch := PendingCommands(d.stored);
      HasStored(Pushed(d, batch, results, n).stored, batch[n].id)
  {
    hide LogAgrees, PendingCommands, Pushed, IsPending, HasStored, DistinctCommands;
    var batch := PendingCommands(d.stored);
    BatchIsDistinct(d);
    PendingCommandsPending(d.stored, n);
    StillPending(d, batch, results, n, n);
    PendingIsStored(Pushed(d, batch, results, n).stored, batch[n]);
  }

  lemma {:induction false} MarkedUnique(stored: seq<Stored>, id: Id, status: CommandStatus)
    requires UniqueCommands(stored)
    ensures UniqueCommands(Marked(stored, id, status))
  {
    if stored != [] {
      var front := stored[..|stored| - 1];
      MarkedUnique(front, id, status);
      MarkedHas(front, id, status, stored[|stored| - 1].command.id);
      assert Marked(stored, id, status)[..|front|] == Marked(front, id, status);
    }
  }

  /** Of the answers to a command the last one counts, and it passes the test. */
  ghost predicate LastAnswer(results: seq<PushResult>, id: Id, test: PushStatus -> bool) {
    exists k :: 0 <= k < |results| && results[k].command == id && test(results[k].status)
                && forall j :: k < j < |results| ==> results[j].command != id
  }

  lemma {:induction false} ResultForIff(results: seq<PushResult>, id: Id, test: PushStatus -> bool)
    ensures ResultFor(results, id).None? <==> forall k :: 0 <= k < |results| ==> results[k].command != id
    ensures LastAnswer(results, id, test) <==> ResultFor(results, id).Some? && test(ResultFor(results, id).value)
  {
    if results != [] {
      var front, last := results[..|results| - 1], results[|results| - 1];
      ResultForIff(front, id, test);
      assert forall k :: 0 <= k < |front| ==> front[k] == results[k];
      if last.command == id {
        assert LastAnswer(results, id, test) <==> test(last.status) by {
          assert results[|results| - 1] == last;
        }
      } else {
        assert LastAnswer(results, id, test) <==> LastAnswer(front, id, test) by {
          if k :| 0 <= k < |results| && results[k].command == id && test(results[k].status)
                  && forall j :: k < j < |results| ==> results[j].command != id {
            assert front[k] == results[k];
          }
          if k :| 0 <= k < |front| && front[k].command == id && test(front[k].status)
                  && forall j :: k < j < |front| ==> front[j].command != id {
            assert results[k] == front[k];
          }
        }
      }
    }
  }

  /** The count is the number of commands whose answer passes the test. */
  lemma {:induction false} CountIsHowMany(batch: seq<Command>, results: seq<PushResult>, n: nat, test: PushStatus -> bool)
    requires n <= |batch|
    ensures CountResults(batch, results, n, test) == |set i | 0 <= i < n && LastAnswer(results, batch[i].id, test)|
  {
    hide ResultFor, LastAnswer;
    if n > 0 {
      CountIsHowMany(batch, results, n - 1, test);
      ResultForIff(results, batch[n - 1].id, test);
      var before := set i | 0 <= i < n - 1 && LastAnswer(results, batch[i].id, test);
      var all := set i | 0 <= i < n && LastAnswer(results, batch[i].id, test);
      if LastAnswer(results, batch[n - 1].id, test) {
        assert all == before + {n - 1};
      } else {
        assert all == before;
      }
    }
  }

  /** Every command of the batch is counted as applied, duplicate or rejected, or is still unanswered. */
  lemma {:induction false} AnswersAddUp(batch: seq<Command>, results: seq<PushResult>, n: nat)
    requires n <= |batch|
    ensures CountResults(batch, results, n, IsApplied) + CountResults(batch, results, n, IsDuplicate)
      + CountResults(batch, results, n, IsRejected) + |Unanswered(batch, results, n)| == n
  {
    hide ResultFor;
    if n > 0 {
      AnswersAddUp(batch, results, n - 1);
    }
  }

  /** `SyncEngine`: push pending commands, pull the feed by cursor, rebuild once. */
  class SyncEngine {
    const commands: CommandStore
    const mirror: LocalInventoryMirror
    const pullLimit: nat
    var cursor: int
    var conflicts: seq<Conflict>

    ghost predicate Valid()
      reads this, commands, mirror, mirror.ledger
    {
      commands.Valid() && mirror.Valid() && pullLimit > 0
    }

    ghost function View(): Device
      reads this, commands, mirror, mirror.ledger
    {
      Device(commands.entries, mirror.View(), cursor, conflicts)
    }

    constructor (commands: CommandStore, mirror: LocalInventoryMirror, pullLimit: nat)
      requires pullLimit > 0 && commands.Valid() && mirror.Valid()
      ensures Valid() && this.commands == commands && this.mirror == mirror && this.pullLimit == pullLimit
      ensures cursor == 0 && conflicts == []
    {
      this.commands, this.mirror, this.pullLimit := commands, mirror, pullLimit;
      cursor, conflicts := 0, [];
    }

    /** Act on the server's answer to one command. */
    method Settle(c: Command, status: PushStatus)
      requires Valid() && HasStored(commands.entries, c.id)
      modifies this`conflicts, commands, mirror`optimistic
      ensures Valid() && View() == Settled(old(View()), c, status)
    {
      hide Consistent, Marked, Without;
      MarkedUnique(commands.entries, c.id, MarkOf(status));
      match status {
        case AckApplied =>
          var _ := commands.Mark(c.id, Synced);
        case AckDuplicate =>
          var _ := commands.Mark(c.id, Synced);
        case AckRejected(reason) =>
          var why := if reason.Some? then reason.value else "rejected by server";
          var _ := commands.Mark(c.id, Rejected(why));
          conflicts := conflicts + [Conflict(c, why)];
      }
      mirror.DiscardCommand(c.id);
    }

    /** Replay the pending batch; commands without a result stay pending. */
    method Push(results: seq<PushResult>) returns (pushed: nat, applied: nat, duplicates: nat, rejected: nat)
      requires Valid() && LogAgrees(View())
      modifies this`conflicts, commands, mirror`optimistic
      ensures Valid()
      ensures var batch := PendingCommands(old(commands.entries));
        && View() == Pushed(old(View()), batch, results, |batch|)
        && pushed == |batch|
        && applied == CountResults(batch, results, |batch|, IsApplied)
        && duplicates == CountResults(batch, results, |batch|, IsDuplicate)
        && rejected == CountResults(batch, results, |batch|, IsRejected)
    {
      hide Consistent, LogAgrees, PendingCommands, Settled, ResultFor, HasStored;
      ghost var d := View();
      var batch := commands.ListPending();
      pushed, applied, duplicates, rejected := |batch|, 0, 0, 0;
      var i := 0;
      while i < |batch|
        invariant 0 <= i <= |batch|
        invariant Valid() && View() == Pushed(d, batch, results, i)
        invariant applied == CountResults(batch, results, i, IsApplied)
        invariant duplicates == CountResults(batch, results, i, IsDuplicate)
        invariant rejected == CountResults(batch, results, i, IsRejected)
      {
        var result := ResultFor(results, batch[i].id);
        BatchStaysStored(d, results, i);
        if result.Some? {
          Settle(batch[i], result.value);
          applied := applied + if IsApplied(result.value) then 1 else 0;
          duplicates := duplicates + if IsDuplicate(result.value) then 1 else 0;
          rejected := rejected + if IsRejected(result.value) then 1 else 0;
        }
        i := i + 1;
      }
    }

    /** Page the feed after the cursor; `answers` is how many pages arrive before the connection drops. */
    method PullFeed(feed: seq<Posted>, answers: nat) returns (pulled: nat, completed: bool)
      requires Valid()
      modifies this`cursor, mirror`serverHistory, mirror`serverMovementIds
      ensures Valid()
      ensures Pull(mirror.serverHistory, cursor, pulled, completed)
        == Pulled(Pull(old(mirror.serverHistory), old(cursor), 0, true), feed, pullLimit, answers)
    {
      hide Consistent, Page, Ingested;
      pulled, completed := 0, false;
      ghost var start := Pull(mirror.serverHistory, cursor, 0, true);
      var left := answers;
      while left > 0
        invariant Valid() && !completed
        invariant Pulled(start, feed, pullLimit, answers)
          == Pulled(Pull(mirror.serverHistory, cursor, pulled, true), feed, pullLimit, left)
      {
        var page := Page(feed, cursor, pullLimit);
        if page == [] {
          completed := true;
          return;
        }
        var _ := mirror.ApplyServerMovements(page);
        pulled := pulled + |page|;
        cursor := page[|page| - 1].seqNo;
        if |page| < pullLimit {
          completed := true;
          return;
        }
        left := left - 1;
      }
    }

    /**
     * One sync. When every page arrives the mirror is rebuilt and shows the feed and what the overlay
     * adds to it, which is the still-pending commands exactly when every orphan has landed; when the
     * connection drops part-way the pages already taken stay.
     */
    method Sync(results: seq<PushResult>, feed: seq<Posted>, answers: nat) returns (report: Option<Report>)
      requires Valid() && DeviceOk(View(), feed) && FeedOk(feed)
      modifies this, commands, mirror
      ensures Valid()
      ensures View() == SyncedDevice(old(View()), results, feed, pullLimit, answers)
      ensures DeviceOk(View(), feed)
      ensures report.Some? ==> Shows(View(), feed) && report.value.cursor == cursor
      ensures report.Some? ==> (Converged(View(), feed) <==> Landed(OrphansOf(View()), Ids(Inputs(feed))))
      ensures report.Some? ==> report.value.pulled == |After(feed, old(cursor))|
      ensures report.Some? ==> var r := report.value;
        var batch := PendingCommands(old(commands.entries));
        && r.pushed == |batch|
        && r.applied == CountResults(batch, results, |batch|, IsApplied)
        && r.duplicates == CountResults(batch, results, |batch|, IsDuplicate)
        && r.rejected == CountResults(batch, results, |batch|, IsRejected)
        && |PendingCommands(commands.entries)| == r.pushed - r.applied - r.duplicates - r.rejected
      ensures answers > |feed| ==> report.Some?
    {
      hide Consistent, LogAgrees, FeedOk, InStep, Pushed, Pulled, PendingCommands, Unanswered, After, Rebuilt, SortBySeq,
           Flatten, OverlayOf, Unseen, Ids, Replayable, Converged, Shows, OrphansOf, OrphansAfter, Landed;
      ghost var d := View();
      SyncKeepsDeviceOk(d, results, feed, pullLimit, answers);
      PushAgrees(d, results, |PendingCommands(d.stored)|);
      var pushed, applied, duplicates, rejected := Push(results);
      ghost var settled := View();
      var pulled, completed := PullFeed(feed, answers);
      if !completed {
        return None;
      }
      HeldIsReplayable(d, settled, mirror.View(), feed, pullLimit, answers);
      CompletedPullTakesRest(d, feed, pullLimit, answers);
      PushLeavesUnanswered(d, results);
      AnswersAddUp(PendingCommands(d.stored), results, |PendingCommands(d.stored)|);
      mirror.Rebuild();
      report := Some(Report(pushed, applied, duplicates, rejected, pulled, cursor));
    }
  }

  /** A completed pull counts exactly the feed items behind the old cursor. */
  lemma {:induction false} CompletedPullTakesRest(d: Device, feed: seq<Posted>, limit: nat, answers: nat)
    requires InStep(d, feed) && FeedOk(feed) && limit > 0
    ensures var p := Pulled(Pull(d.mirror.history, d.cursor, 0, true), feed, limit, answers);
      p.completed ==> p.pulled == |After(feed, d.cursor)|
  {
    hide FeedOk, Pulled, After;
    var m :| InStepAt(d.mirror.history, d.cursor, feed, |d.mirror.history|, m);
    var n', m' := PullKeepsInStep(Pull(d.mirror.history, d.cursor, 0, true), feed, limit, answers, |d.mirror.history|, m);
    AfterIsSuffix(feed, m);
  }

  /** What a completed pull holds can be replayed without a refusal. */
  lemma {:induction false} HeldIsReplayable(d: Device, settled: Device, held: Mirror, feed: seq<Posted>, limit: nat, answers: nat)
    requires InStep(d, feed) && FeedOk(feed) && limit > 0 && LogAgrees(settled)
    requires settled.mirror.history == d.mirror.history && settled.cursor == d.cursor
    requires held == settled.mirror.(
      history := Pulled(Pull(d.mirror.history, d.cursor, 0, true), feed, limit, answers).history)
    ensures Replayable(held)
  {
    hide LogAgrees, FeedOk, Pulled, Replayable;
    var m :| InStepAt(d.mirror.history, d.cursor, feed, |d.mirror.history|, m);
    var n', m' := PullKeepsInStep(Pull(d.mirror.history, d.cursor, 0, true), feed, limit, answers, |d.mirror.history|, m);
    InStepIsReplayable(settled, feed, held.history, n');
  }
}
