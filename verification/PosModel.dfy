/**
 * Values the offline point of sale works on: commands, serialized units, the ledger
 * movements a command implies, and what a device remembers.
 */
module PosModel {
  import opened Common
  import opened Digits
  import opened Ledger
  import opened Serialized

  // ---------------------------------------------------------------- serialized units

  datatype Unit = Unit(id: Id, variant: Id, imei1: Option<Id>, imei2: Option<Id>, state: UnitState)

  /** The unit state an authoritative movement implies, where it implies one. */
  function StateAfter(kind: MovementType): Option<UnitState> {
    match kind
    case Receipt | TransferIn | RepairIn => Some(InStock)
    case Sale => Some(Sold)
    case ReturnIn => Some(BackForCheck)
    case TransferOut => Some(OnTheWay)
    case WriteOff => Some(WrittenOff)
    case RepairOut => Some(Broken)
    case _ => None
  }

  type UnitStates = map<Id, UnitState>

  function UnitStep(seeds: map<Id, Unit>, states: UnitStates, m: Movement): UnitStates {
    if m.unit.Some? && StateAfter(m.kind).Some? && m.unit.value in seeds
    then states[m.unit.value := StateAfter(m.kind).value]
    else states
  }

  function UnitReplay(seeds: map<Id, Unit>, states: UnitStates, h: seq<Movement>): UnitStates {
    if h == [] then states else UnitStep(seeds, UnitReplay(seeds, states, h[..|h| - 1]), h[|h| - 1])
  }

  lemma {:induction false} UnitReplayAppend(seeds: map<Id, Unit>, states: UnitStates, g: seq<Movement>, h: seq<Movement>)
    ensures UnitReplay(seeds, states, g + h) == UnitReplay(seeds, UnitReplay(seeds, states, g), h)
  {
    if h == [] {
      assert g + h == g;
    } else {
      UnitReplayAppend(seeds, states, g, h[..|h| - 1]);
      assert (g + h)[..|g + h| - 1] == g + h[..|h| - 1];
    }
  }

  function SeedStates(seeds: map<Id, Unit>): UnitStates {
    map id | id in seeds :: seeds[id].state
  }

  // ---------------------------------------------------------------- commands

  datatype SaleLine = SaleLine(variant: Id, qty: int, unitPriceMinor: int, unit: Option<Id>, imei: Option<Id>)

  datatype Command =
    | SaleCommand(id: Id, seqNo: nat, location: Id, lines: seq<SaleLine>)
    | ReturnCommand(id: Id, seqNo: nat, location: Id, lines: seq<SaleLine>)
    | CashSessionOpen(id: Id, seqNo: nat, location: Id, amountMinor: int)
    | CashSessionClose(id: Id, seqNo: nat, location: Id, amountMinor: int)
  {
    predicate MovesStock() {
      SaleCommand? || ReturnCommand?
    }
  }

  /** `${command.id}:${index}`. */
  function LineId(command: Id, index: nat): Id {
    Numbered(command, index)
  }

  function LineMovement(c: Command, i: nat): Movement
    requires c.MovesStock() && i < |c.lines|
  {
    var line := c.lines[i];
    if c.SaleCommand? then
      Movement(LineId(c.id, i), Sale, line.variant, line.unit, line.qty,
               Some(BucketRef(c.location, OnHand)), None, Reference("pos_command", c.id), None)
    else
      Movement(LineId(c.id, i), ReturnIn, line.variant, line.unit, line.qty,
               None, Some(BucketRef(c.location, ReturnedPending)), Reference("pos_command", c.id), None)
  }

  function FirstLines(c: Command, n: nat): (ms: seq<Movement>)
    requires c.MovesStock() && n <= |c.lines|
    ensures |ms| == n
  {
    if n == 0 then [] else FirstLines(c, n - 1) + [LineMovement(c, n - 1)]
  }

  /** `commandToMovements`: one movement per line; cash sessions move no stock. */
  function CommandToMovements(c: Command): (ms: seq<Movement>)
    ensures |ms| == if c.MovesStock() then |c.lines| else 0
  {
    if c.MovesStock() then FirstLines(c, |c.lines|) else []
  }

  lemma {:induction false} FirstLinesAt(c: Command, n: nat, i: nat)
    requires c.MovesStock() && i < n <= |c.lines|
    ensures FirstLines(c, n)[i] == LineMovement(c, i)
  {
    if i < n - 1 {
      FirstLinesAt(c, n - 1, i);
    }
  }

  /** The ids of lines 0..n of a command. */
  function LineIds(command: Id, n: nat): set<Id> {
    if n == 0 then {} else LineIds(command, n - 1) + {LineId(command, n - 1)}
  }

  lemma {:induction false} LineIdsIndex(command: Id, n: nat, id: Id) returns (i: nat)
    requires id in LineIds(command, n)
    ensures i < n && id == LineId(command, i)
  {
    if id == LineId(command, n - 1) {
      i := n - 1;
    } else {
      i := LineIdsIndex(command, n - 1, id);
    }
  }

  lemma {:induction false} LineIdsHave(command: Id, n: nat, i: nat)
    requires i < n
    ensures LineId(command, i) in LineIds(command, n)
  {
    if i < n - 1 {
      LineIdsHave(command, n - 1, i);
    }
  }

  lemma {:induction false} FirstLinesDistinct(c: Command, n: nat)
    requires c.MovesStock() && n <= |c.lines|
    ensures Ids(FirstLines(c, n)) == LineIds(c.id, n)
    ensures DistinctIds(FirstLines(c, n))
  {
    if n > 0 {
      hide LineMovement, LineId;
      FirstLinesDistinct(c, n - 1);
      assert FirstLines(c, n)[..n - 1] == FirstLines(c, n - 1);
      LineMovementId(c, n - 1);
      LineIdIsNew(c.id, n - 1);
    }
  }

  lemma LineMovementId(c: Command, i: nat)
    requires c.MovesStock() && i < |c.lines|
    ensures LineMovement(c, i).id == LineId(c.id, i)
  {
  }

  lemma {:induction false} LineIdIsNew(command: Id, n: nat)
    ensures LineId(command, n) !in LineIds(command, n)
  {
    hide Numbered;
    if LineId(command, n) in LineIds(command, n) {
      var i := LineIdsIndex(command, n, LineId(command, n));
      NumberedInjective(command, n, command, i);
    }
  }

  function LineCount(c: Command): nat {
    if c.MovesStock() then |c.lines| else 0
  }

  /** The ids of a command's movements are exactly its line ids, all different. */
  lemma CommandMovements(c: Command)
    ensures DistinctIds(CommandToMovements(c))
    ensures Ids(CommandToMovements(c)) == LineIds(c.id, LineCount(c))
  {
    if c.MovesStock() {
      FirstLinesDistinct(c, |c.lines|);
    }
  }

  /** Lines of commands with different ids have different ids. */
  lemma {:induction false} LinesOfDifferentCommands(c: Id, m: nat, d: Id, n: nat)
    requires c != d
    ensures LineIds(c, m) !! LineIds(d, n)
  {
    forall id | id in LineIds(c, m) && id in LineIds(d, n) ensures false {
      var i := LineIdsIndex(c, m, id);
      var j := LineIdsIndex(d, n, id);
      NumberedInjective(c, i, d, j);
    }
  }

  // ---------------------------------------------------------------- what a device remembers

  datatype OverlayEntry = OverlayEntry(command: Id, movements: seq<Movement>)

  /**
   * The local mirror: pulled history, overlay of pending commands in append order, the
   * movements its derived ledger currently holds, and unit seeds, states and IMEI index.
   */
  datatype Mirror = Mirror(history: seq<Posted>, overlay: seq<OverlayEntry>, posted: seq<Movement>,
                           seeds: map<Id, Unit>, states: UnitStates, imeis: map<Id, Id>)

  datatype CommandStatus = Pending | Synced | Rejected(reason: string)

  datatype Stored = Stored(command: Command, status: CommandStatus)

  datatype Conflict = Conflict(command: Command, reason: string)

  /** Everything a device keeps: command log, mirror, pull cursor and conflict records. */
  datatype Device = Device(stored: seq<Stored>, mirror: Mirror, cursor: int, conflicts: seq<Conflict>)

  // ---------------------------------------------------------------- the mirror, as functions

  function OverlayIds(overlay: seq<OverlayEntry>): set<Id> {
    set e | e in overlay :: e.command
  }

  function Flatten(overlay: seq<OverlayEntry>): seq<Movement> {
    if overlay == [] then [] else Flatten(overlay[..|overlay| - 1]) + overlay[|overlay| - 1].movements
  }

  /** The movements whose ids are not in `known`, in order. */
  function Unseen(ms: seq<Movement>, known: set<Id>): seq<Movement> {
    if ms == [] then []
    else
      var front := Unseen(ms[..|ms| - 1], known);
      if ms[|ms| - 1].id in known then front else front + [ms[|ms| - 1]]
  }

  lemma {:induction false} UnseenAppend(a: seq<Movement>, b: seq<Movement>, known: set<Id>)
    ensures Unseen(a + b, known) == Unseen(a, known) + Unseen(b, known)
  {
    if b == [] {
      assert a + b == a;
    } else {
      UnseenAppend(a, b[..|b| - 1], known);
      assert (a + b)[..|a + b| - 1] == a + b[..|b| - 1];
    }
  }

  lemma {:induction false} UnseenAll(ms: seq<Movement>, known: set<Id>)
    requires Ids(ms) !! known
    ensures Unseen(ms, known) == ms
  {
    if ms != [] {
      UnseenAll(ms[..|ms| - 1], known);
    }
  }

  lemma {:induction false} UnseenIds(ms: seq<Movement>, known: set<Id>)
    ensures Ids(Unseen(ms, known)) == Ids(ms) - known
  {
    if ms != [] {
      var front := Unseen(ms[..|ms| - 1], known);
      UnseenIds(ms[..|ms| - 1], known);
      assert (front + [ms[|ms| - 1]])[..|front|] == front;
    }
  }

  lemma {:induction false} UnseenDistinct(ms: seq<Movement>, known: set<Id>)
    requires DistinctIds(ms)
    ensures DistinctIds(Unseen(ms, known))
  {
    if ms != [] {
      var front := Unseen(ms[..|ms| - 1], known);
      UnseenDistinct(ms[..|ms| - 1], known);
      UnseenIds(ms[..|ms| - 1], known);
      assert (front + [ms[|ms| - 1]])[..|front|] == front;
    }
  }

  /** Stable insertion by sequence number: `serverHistory.sort((a, b) => a.seq - b.seq)`. */
  function InsertBySeq(h: seq<Posted>, p: Posted): seq<Posted> {
    if h == [] || h[|h| - 1].seqNo <= p.seqNo then h + [p]
    else InsertBySeq(h[..|h| - 1], p) + [h[|h| - 1]]
  }

  function SortBySeq(h: seq<Posted>): seq<Posted> {
    if h == [] then [] else InsertBySeq(SortBySeq(h[..|h| - 1]), h[|h| - 1])
  }

  /** Strictly increasing sequence numbers. */
  predicate Ascending(h: seq<Posted>) {
    h == [] || (Ascending(h[..|h| - 1]) && (|h| > 1 ==> h[|h| - 2].seqNo < h[|h| - 1].seqNo))
  }

  lemma PushMember(h: seq<Posted>, p: Posted)
    ensures multiset(h + [p]) == multiset(h) + multiset{p}
  {
  }

  lemma {:induction false} InsertMembers(h: seq<Posted>, p: Posted)
    ensures multiset(InsertBySeq(h, p)) == multiset(h) + multiset{p}
  {
    if h == [] || h[|h| - 1].seqNo <= p.seqNo {
      PushMember(h, p);
    } else {
      var front, last := h[..|h| - 1], h[|h| - 1];
      InsertMembers(front, p);
      PushMember(InsertBySeq(front, p), last);
      PushMember(front, last);
      assert h == front + [last];
    }
  }

  /** Sorting is a permutation. */
  lemma {:induction false} SortMembers(h: seq<Posted>)
    ensures multiset(SortBySeq(h)) == multiset(h)
  {
    if h != [] {
      var front, last := h[..|h| - 1], h[|h| - 1];
      SortMembers(front);
      InsertMembers(SortBySeq(front), last);
      PushMember(front, last);
      assert h == front + [last];
    }
  }

  predicate InOrder(h: seq<Posted>) {
    h == [] || (InOrder(h[..|h| - 1]) && (|h| > 1 ==> h[|h| - 2].seqNo <= h[|h| - 1].seqNo))
  }

  lemma {:induction false} InsertInOrder(h: seq<Posted>, p: Posted)
    requires InOrder(h)
    ensures InOrder(InsertBySeq(h, p))
    ensures var r := InsertBySeq(h, p);
      r[|r| - 1] == if h == [] || h[|h| - 1].seqNo <= p.seqNo then p else h[|h| - 1]
  {
    if h == [] || h[|h| - 1].seqNo <= p.seqNo {
      assert (h + [p])[..|h|] == h;
    } else {
      var r := InsertBySeq(h[..|h| - 1], p);
      InsertInOrder(h[..|h| - 1], p);
      assert (r + [h[|h| - 1]])[..|r|] == r;
    }
  }

  /** Sorting puts the history in sequence order. */
  lemma {:induction false} SortIsInOrder(h: seq<Posted>)
    ensures InOrder(SortBySeq(h))
  {
    if h != [] {
      SortIsInOrder(h[..|h| - 1]);
      InsertInOrder(SortBySeq(h[..|h| - 1]), h[|h| - 1]);
    }
  }

  lemma {:induction false} InsertIds(h: seq<Posted>, p: Posted)
    ensures Ids(Inputs(InsertBySeq(h, p))) == Ids(Inputs(h)) + {p.movement.id}
  {
    hide Ids, Inputs;
    if h == [] || h[|h| - 1].seqNo <= p.seqNo {
      InputsPush(h, p);
    } else {
      var front, last := h[..|h| - 1], h[|h| - 1];
      InsertIds(front, p);
      InputsPush(InsertBySeq(front, p), last);
      InputsPush(front, last);
      assert h == front + [last];
    }
  }

  lemma {:induction false} SortIds(h: seq<Posted>)
    ensures Ids(Inputs(SortBySeq(h))) == Ids(Inputs(h))
  {
    if h != [] {
      var front, last := h[..|h| - 1], h[|h| - 1];
      SortIds(front);
      InsertIds(SortBySeq(front), last);
      InputsPush(front, last);
      assert h == front + [last];
    }
  }

  lemma InputsPush(h: seq<Posted>, p: Posted)
    ensures Inputs(h + [p]) == Inputs(h) + [p.movement]
    ensures Ids(Inputs(h + [p])) == Ids(Inputs(h)) + {p.movement.id}
  {
    assert Inputs(h + [p]) == Inputs(h) + [p.movement];
    assert (Inputs(h) + [p.movement])[..|h|] == Inputs(h);
  }

  /** A history already in sequence order is left as it is. */
  lemma {:induction false} SortOfAscending(h: seq<Posted>)
    requires Ascending(h)
    ensures SortBySeq(h) == h
  {
    if h != [] {
      SortOfAscending(h[..|h| - 1]);
    }
  }

  /** What a rebuild replays: server history in sequence order, then the overlay it has not overtaken. */
  function Effective(mi: Mirror): seq<Movement> {
    Inputs(SortBySeq(mi.history)) + Unseen(Flatten(mi.overlay), Ids(Inputs(mi.history)))
  }

  /** The mirror's derived state is exactly a replay of what it should hold. */
  ghost predicate Fresh(mi: Mirror) {
    && mi.posted == Effective(mi)
    && mi.states == UnitReplay(mi.seeds, SeedStates(mi.seeds), Effective(mi))
  }

  /** The replay meets no refusal: ids are distinct and every movement is well-shaped. */
  ghost predicate Replayable(mi: Mirror) {
    && DistinctIds(Inputs(mi.history)) && WellShaped(Inputs(mi.history))
    && DistinctIds(Flatten(mi.overlay)) && WellShaped(Flatten(mi.overlay))
  }

  function Rebuilt(mi: Mirror): Mirror {
    var h := SortBySeq(mi.history);
    var e := Inputs(h) + Unseen(Flatten(mi.overlay), Ids(Inputs(mi.history)));
    mi.(history := h, posted := e, states := UnitReplay(mi.seeds, SeedStates(mi.seeds), e))
  }

  /** Ingest a page of the feed, ignoring ids already held. */
  function Ingested(h: seq<Posted>, items: seq<Posted>): seq<Posted>
    decreases |items|
  {
    if items == [] then h
    else if items[0].movement.id in Ids(Inputs(h)) then Ingested(h, items[1..])
    else Ingested(h + [items[0]], items[1..])
  }

  function Without(overlay: seq<OverlayEntry>, command: Id): seq<OverlayEntry> {
    if overlay == [] then []
    else
      var front := Without(overlay[..|overlay| - 1], command);
      var e := overlay[|overlay| - 1];
      if e.command == command then front else front + [e]
  }

  /** Optimistically apply a command: its movements go on top, up to the first refusal. */
  function Applied(mi: Mirror, command: Id, ms: seq<Movement>): Mirror {
    var k := Accepted(mi.posted, ms);
    mi.(posted := mi.posted + ms[..k],
        states := UnitReplay(mi.seeds, mi.states, ms[..k]),
        overlay := if k == |ms| then mi.overlay + [OverlayEntry(command, ms)] else mi.overlay)
  }

  function UnitOf(mi: Mirror, id: Id): Option<Unit> {
    if id !in mi.seeds then None
    else Some(mi.seeds[id].(state := if id in mi.states then mi.states[id] else mi.seeds[id].state))
  }

  function UnitByImei(mi: Mirror, imei: Id): Option<Unit> {
    if imei in mi.imeis then UnitOf(mi, mi.imeis[imei]) else None
  }

  function LevelOf(mi: Mirror, variant: Id, location: Id, state: StockState): int {
    Fold(mi.posted, Bucket(variant, location, state))
  }

  // ---------------------------------------------------------------- validating a command

  /** Resolve IMEI-only lines to their unit. */
  function NormalizedLine(mi: Mirror, line: SaleLine): Result<SaleLine, LedgerError> {
    if line.unit.Some? || line.imei.None? then Ok(line)
    else if UnitByImei(mi, line.imei.value).None? then Err(SerializedRule)
    else Ok(line.(unit := Some(UnitByImei(mi, line.imei.value).value.id)))
  }

  function NormalizedLines(mi: Mirror, lines: seq<SaleLine>): (r: Result<seq<SaleLine>, LedgerError>)
    ensures r.Ok? ==> |r.value| == |lines|
  {
    if lines == [] then Ok([])
    else
      match NormalizedLines(mi, lines[..|lines| - 1])
      case Err(e) => Err(e)
      case Ok(front) =>
        match NormalizedLine(mi, lines[|lines| - 1])
        case Err(e) => Err(e)
        case Ok(line) => Ok(front + [line])
  }

  function Normalized(mi: Mirror, input: Command, seqNo: nat): Result<Command, LedgerError> {
    match input
    case CashSessionOpen(id, _, location, amount) => Ok(CashSessionOpen(id, seqNo, location, amount))
    case CashSessionClose(id, _, location, amount) => Ok(CashSessionClose(id, seqNo, location, amount))
    case SaleCommand(id, _, location, lines) =>
      (match NormalizedLines(mi, lines)
       case Err(e) => Err(e)
       case Ok(ls) => Ok(SaleCommand(id, seqNo, location, ls)))
    case ReturnCommand(id, _, location, lines) =>
      (match NormalizedLines(mi, lines)
       case Err(e) => Err(e)
       case Ok(ls) => Ok(ReturnCommand(id, seqNo, location, ls)))
  }

  /** The first shape error among the movements, in line order. */
  function FirstShapeError(ms: seq<Movement>): (e: Option<LedgerError>)
    ensures e.None? <==> WellShaped(ms)
  {
    if ms == [] then None
    else if FirstShapeError(ms[..|ms| - 1]).Some? then FirstShapeError(ms[..|ms| - 1])
    else ShapeError(ms[|ms| - 1])
  }

  function SaleLineError(mi: Mirror, line: SaleLine): Option<LedgerError> {
    if line.unitPriceMinor < 0 then Some(InvalidShape)
    else if line.unit.None? then None
    else if line.qty != WHOLE then Some(SerializedRule)
    else
      match UnitOf(mi, line.unit.value)
      case None => Some(SerializedRule)
      case Some(u) =>
        if u.variant != line.variant || !CanTransition(u.state, Sold) then Some(SerializedRule) else None
  }

  function ReturnLineError(mi: Mirror, line: SaleLine): Option<LedgerError> {
    if line.unitPriceMinor < 0 then Some(InvalidShape)
    else if line.unit.None? then None
    else if line.qty != WHOLE then Some(SerializedRule)
    else
      match UnitOf(mi, line.unit.value)
      case None => None
      case Some(u) => if !CanTransition(u.state, BackForCheck) then Some(SerializedRule) else None
  }

  function FirstLineError(mi: Mirror, sale: bool, lines: seq<SaleLine>): Option<LedgerError> {
    if lines == [] then None
    else
      var front := FirstLineError(mi, sale, lines[..|lines| - 1]);
      if front.Some? then front
      else if sale then SaleLineError(mi, lines[|lines| - 1])
      else ReturnLineError(mi, lines[|lines| - 1])
  }

  /** The quantity of a variant over all lines of a command. */
  function Needed(lines: seq<SaleLine>, variant: Id): int {
    if lines == [] then 0
    else
      var line := lines[|lines| - 1];
      Needed(lines[..|lines| - 1], variant) + (if line.variant == variant then line.qty else 0)
  }

  /** Some variant of the command is short at its location. */
  predicate Short(mi: Mirror, location: Id, lines: seq<SaleLine>) {
    exists i :: 0 <= i < |lines| && LevelOf(mi, lines[i].variant, location, OnHand) < Needed(lines, lines[i].variant)
  }

  /** `CommandLog.validate`: shapes first, then the line rules, then quantity over the whole sale. */
  function CommandError(mi: Mirror, c: Command): Option<LedgerError> {
    var shape := FirstShapeError(CommandToMovements(c));
    if shape.Some? then shape
    else if !c.MovesStock() then None
    else
      var line := FirstLineError(mi, c.SaleCommand?, c.lines);
      if line.Some? then line
      else if c.SaleCommand? && Short(mi, c.location, c.lines) then Some(InsufficientStock)
      else None
  }

  // ---------------------------------------------------------------- the command log, as functions

  function LastSeq(stored: seq<Stored>): nat {
    if stored == [] then 0
    else
      var front := LastSeq(stored[..|stored| - 1]);
      var s := stored[|stored| - 1].command.seqNo;
      if front < s then s else front
  }

  predicate HasStored(stored: seq<Stored>, id: Id) {
    stored != [] && (stored[|stored| - 1].command.id == id || HasStored(stored[..|stored| - 1], id))
  }

  function PendingCommands(stored: seq<Stored>): seq<Command> {
    if stored == [] then []
    else
      var front := PendingCommands(stored[..|stored| - 1]);
      var s := stored[|stored| - 1];
      if s.status == Pending then front + [s.command] else front
  }

  function Marked(stored: seq<Stored>, id: Id, status: CommandStatus): (r: seq<Stored>)
    ensures |r| == |stored|
  {
    if stored == [] then []
    else
      var s := stored[|stored| - 1];
      Marked(stored[..|stored| - 1], id, status) + [if s.command.id == id then s.(status := status) else s]
  }

  /** The part of `append` after validation: mirror first, then the log. */
  function Entered(d: Device, c: Command): (Device, Result<Command, LedgerError>) {
    var ms := CommandToMovements(c);
    var k := Accepted(d.mirror.posted, ms);
    var touched := d.(mirror := if ms == [] then d.mirror else Applied(d.mirror, c.id, ms));
    if k < |ms| then (touched, Err(Refusal(d.mirror.posted + ms[..k], true, ms[k]).value))
    else if HasStored(d.stored, c.id) then (touched, Err(AlreadyStored))
    else (touched.(stored := d.stored + [Stored(c, Pending)]), Ok(c))
  }

  /** `CommandLog.append`: the device afterwards, and the command or the refusal. */
  function Appended(d: Device, input: Command): (Device, Result<Command, LedgerError>) {
    if input.id in OverlayIds(d.mirror.overlay) then (d, Err(DuplicateMovement))
    else
      match Normalized(d.mirror, input, LastSeq(d.stored) + 1)
      case Err(e) => (d, Err(e))
      case Ok(c) =>
        if CommandError(d.mirror, c).Some? then (d, Err(CommandError(d.mirror, c).value))
        else Entered(d, c)
  }
}
