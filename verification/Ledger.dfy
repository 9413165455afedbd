/**
 * The inventory ledger: append-only movements between typed stock buckets, and levels
 * derived from them. Quantities are integers in thousandths of a unit.
 */
module Ledger {
  import opened Common

  type Id = string

  datatype StockState = OnHand | Reserved | InTransit | Damaged | ReturnedPending

  datatype MovementType =
    | Receipt | Sale | ReturnIn | TransferOut | TransferIn | Adjustment
    | Reservation | Release | WriteOff | CountCorrection | RepairOut | RepairIn

  datatype BucketRef = BucketRef(location: Id, state: StockState)

  datatype Bucket = Bucket(variant: Id, location: Id, state: StockState)

  datatype Reference = Reference(kind: string, id: Id)

  datatype Movement = Movement(
    id: Id, kind: MovementType, variant: Id, unit: Option<Id>, qty: int,
    from: Option<BucketRef>, to: Option<BucketRef>, reference: Reference, approval: Option<Id>)

  /** A movement with the sequence number the ledger gave it: the sync cursor. */
  datatype Posted = Posted(movement: Movement, seqNo: int)

  datatype LedgerError =
    | InvalidShape | InsufficientStock | ApprovalRequired | DuplicateMovement
    | SerializedRule | DuplicateImei | InvalidImei | InvalidTransition | AlreadyStored

  // ---------------------------------------------------------------- shape rules

  datatype Presence = Required | Forbidden | Either

  function FromPresence(kind: MovementType): Presence {
    match kind
    case Receipt | ReturnIn => Forbidden
    case CountCorrection => Either
    case _ => Required
  }

  function ToPresence(kind: MovementType): Presence {
    match kind
    case Sale | Adjustment | WriteOff => Forbidden
    case CountCorrection => Either
    case _ => Required
  }

  /** The states a movement type may draw stock from. */
  predicate FromStateOk(kind: MovementType, s: StockState) {
    match kind
    case Sale => s == OnHand || s == StockState.Reserved
    case TransferOut | Reservation | CountCorrection | RepairOut => s == OnHand
    case TransferIn => s == InTransit
    case Release => s == StockState.Reserved
    case WriteOff => s == OnHand || s == Damaged || s == ReturnedPending
    case RepairIn => s == Damaged
    case _ => true
  }

  /** The states a movement type may put stock into. */
  predicate ToStateOk(kind: MovementType, s: StockState) {
    match kind
    case Receipt | TransferIn | Release | CountCorrection | RepairIn => s == OnHand
    case ReturnIn => s == ReturnedPending || s == OnHand
    case TransferOut => s == InTransit
    case Reservation => s == StockState.Reserved
    case RepairOut => s == Damaged
    case _ => true
  }

  /** A transfer leaves its location; every other two-sided movement stays within one. */
  predicate SitesOk(m: Movement)
    requires m.from.Some? && m.to.Some?
  {
    if m.kind == TransferOut then m.from.value.location != m.to.value.location
    else if m.kind == CountCorrection then true
    else m.from.value.location == m.to.value.location
  }

  predicate NeedsApproval(kind: MovementType) {
    kind == Adjustment || kind == WriteOff || kind == CountCorrection
  }

  predicate PresenceOk(p: Presence, side: Option<BucketRef>) {
    (p == Required ==> side.Some?) && (p == Forbidden ==> side.None?)
  }

  /** `validateMovementShape`: the first error, or none. Every shape error precedes the approval error. */
  function ShapeError(m: Movement): (e: Option<LedgerError>)
    ensures e.None? ==> m.qty > 0 && (m.from.Some? || m.to.Some?) && m.from != m.to
    ensures e == Some(ApprovalRequired) ==> m.approval.None?
  {
    if m.qty <= 0 then Some(InvalidShape)
    else if !PresenceOk(FromPresence(m.kind), m.from) then Some(InvalidShape)
    else if !PresenceOk(ToPresence(m.kind), m.to) then Some(InvalidShape)
    else if m.kind == CountCorrection && m.from.Some? == m.to.Some? then Some(InvalidShape)
    else if m.from.Some? && !FromStateOk(m.kind, m.from.value.state) then Some(InvalidShape)
    else if m.to.Some? && !ToStateOk(m.kind, m.to.value.state) then Some(InvalidShape)
    else if m.from.Some? && m.to.Some? && !SitesOk(m) then Some(InvalidShape)
    else if NeedsApproval(m.kind) && m.approval.None? then Some(ApprovalRequired)
    else None
  }

  /** A missing approval is reported exactly when nothing else is wrong, and any other error whether or not there is one. */
  lemma ApprovalComesLast(m: Movement, approval: Id)
    ensures var approved := m.(approval := Some(approval));
      && (ShapeError(m) == Some(ApprovalRequired) <==>
          NeedsApproval(m.kind) && m.approval.None? && ShapeError(approved).None?)
      && (ShapeError(m) == Some(InvalidShape) <==> ShapeError(approved) == Some(InvalidShape))
      && (ShapeError(m).Some? ==> ShapeError(m).value in {InvalidShape, ApprovalRequired})
  {
  }

  /** The routes stock may take: from which state to which, `None` being outside, and whether across sites. */
  predicate Route(kind: MovementType, from: Option<StockState>, to: Option<StockState>, across: bool) {
    || ((kind, from, to) in {(Receipt, None, Some(OnHand)), (ReturnIn, None, Some(ReturnedPending)), (ReturnIn, None, Some(OnHand)),
                             (Sale, Some(OnHand), None), (Sale, Some(StockState.Reserved), None),
                             (WriteOff, Some(OnHand), None), (WriteOff, Some(Damaged), None), (WriteOff, Some(ReturnedPending), None),
                             (CountCorrection, None, Some(OnHand)), (CountCorrection, Some(OnHand), None)})
    || (kind == Adjustment && from.Some? && to.None?)
    || (across && kind == TransferOut && from == Some(OnHand) && to == Some(InTransit))
    || (!across && (kind, from, to) in {(TransferIn, Some(InTransit), Some(OnHand)),
                                        (Reservation, Some(OnHand), Some(StockState.Reserved)),
                                        (Release, Some(StockState.Reserved), Some(OnHand)),
                                        (RepairOut, Some(OnHand), Some(Damaged)), (RepairIn, Some(Damaged), Some(OnHand))})
  }

  function StateOf(side: Option<BucketRef>): Option<StockState> {
    match side case None => None case Some(b) => Some(b.state)
  }

  /** A movement has a proper shape exactly when it takes a positive quantity along such a route, approved where that is needed. */
  lemma ShapeOkIff(m: Movement)
    ensures ShapeError(m).None? <==>
      && m.qty > 0
      && Route(m.kind, StateOf(m.from), StateOf(m.to),
               m.from.Some? && m.to.Some? && m.from.value.location != m.to.value.location)
      && (m.kind in {Adjustment, WriteOff, CountCorrection} ==> m.approval.Some?)
  {
  }

  // ---------------------------------------------------------------- the fold

  function FromBucket(m: Movement): Bucket
    requires m.from.Some?
  {
    Bucket(m.variant, m.from.value.location, m.from.value.state)
  }

  function ToBucket(m: Movement): Bucket
    requires m.to.Some?
  {
    Bucket(m.variant, m.to.value.location, m.to.value.state)
  }

  /** What one movement adds to a bucket: its credit minus its debit. */
  function Delta(m: Movement, b: Bucket): int {
    (if m.to.Some? && ToBucket(m) == b then m.qty else 0)
    - (if m.from.Some? && FromBucket(m) == b then m.qty else 0)
  }

  /** The level a history gives a bucket: credits minus debits. */
  function Fold(h: seq<Movement>, b: Bucket): int {
    if h == [] then 0 else Fold(h[..|h| - 1], b) + Delta(h[|h| - 1], b)
  }

  lemma {:induction false} FoldAppend(g: seq<Movement>, h: seq<Movement>, b: Bucket)
    ensures Fold(g + h, b) == Fold(g, b) + Fold(h, b)
  {
    if h == [] {
      assert g + h == g;
    } else {
      FoldAppend(g, h[..|h| - 1], b);
      assert (g + h)[..|g + h| - 1] == g + h[..|h| - 1];
    }
  }

  lemma {:induction false} FoldOne(h: seq<Movement>, m: Movement, b: Bucket)
    ensures Fold(h + [m], b) == Fold(h, b) + Delta(m, b)
  {
    assert (h + [m])[..|h + [m]| - 1] == h;
  }

  lemma {:induction false} FoldWithout(g: seq<Movement>, i: nat, b: Bucket)
    requires i < |g|
    ensures Fold(g, b) == Fold(g[..i] + g[i + 1..], b) + Delta(g[i], b)
  {
    hide Delta;
    var m := g[i];
    assert g == g[..i] + [m] + g[i + 1..];
    FoldAppend(g[..i] + [m], g[i + 1..], b);
    FoldOne(g[..i], m, b);
    FoldAppend(g[..i], g[i + 1..], b);
  }

  lemma MembersWithout(g: seq<Movement>, i: nat)
    requires i < |g|
    ensures multiset(g[..i] + g[i + 1..]) == multiset(g) - multiset{g[i]}
  {
    assert g == g[..i] + ([g[i]] + g[i + 1..]);
  }

  /** Levels do not depend on the order in which movements are replayed. */
  lemma {:induction false} FoldOfPermutation(g: seq<Movement>, h: seq<Movement>, b: Bucket)
    requires multiset(g) == multiset(h)
    ensures Fold(g, b) == Fold(h, b)
    decreases |h|
  {
    if h == [] {
      assert |multiset(g)| == 0;
    } else {
      var last := |h| - 1;
      assert h[last] in multiset(g);
      var i :| 0 <= i < |g| && g[i] == h[last];
      MembersWithout(g, i);
      MembersWithout(h, last);
      FoldWithout(g, i, b);
      FoldWithout(h, last, b);
      hide Fold;
      FoldOfPermutation(g[..i] + g[i + 1..], h[..last] + h[last + 1..], b);
    }
  }

  // ---------------------------------------------------------------- conservation

  /** Total level over a finite set of buckets. */
  ghost function Total(h: seq<Movement>, bs: set<Bucket>): int {
    if bs == {} then 0
    else
      var b :| b in bs;
      Fold(h, b) + Total(h, bs - {b})
  }

  lemma {:induction false} TotalRemove(h: seq<Movement>, bs: set<Bucket>, b: Bucket)
    requires b in bs
    ensures Total(h, bs) == Fold(h, b) + Total(h, bs - {b})
    decreases |bs|
  {
    var c :| c in bs && Total(h, bs) == Fold(h, c) + Total(h, bs - {c});
    if c != b {
      TotalRemove(h, bs - {c}, b);
      TotalRemove(h, bs - {b}, c);
      assert bs - {c} - {b} == bs - {b} - {c};
    }
  }

  /** What a movement brings into the variant from outside: positive for intake, negative for issue. */
  function NetIntake(m: Movement, variant: Id): int {
    if m.variant != variant then 0
    else (if m.to.Some? then m.qty else 0) - (if m.from.Some? then m.qty else 0)
  }

  function Intake(h: seq<Movement>, variant: Id): int {
    if h == [] then 0 else Intake(h[..|h| - 1], variant) + NetIntake(h[|h| - 1], variant)
  }

  /** Every bucket of the variant that the history touches is in the set, and only buckets of the variant. */
  ghost predicate Covers(bs: set<Bucket>, h: seq<Movement>, variant: Id) {
    && (forall b :: b in bs ==> b.variant == variant)
    && (forall i :: 0 <= i < |h| && h[i].variant == variant && h[i].from.Some? ==> FromBucket(h[i]) in bs)
    && (forall i :: 0 <= i < |h| && h[i].variant == variant && h[i].to.Some? ==> ToBucket(h[i]) in bs)
  }

  /** The set sum of one movement's deltas. */
  lemma {:induction false} TotalStep(h: seq<Movement>, m: Movement, bs: set<Bucket>)
    ensures Total(h + [m], bs) == Total(h, bs)
      + (if m.to.Some? && ToBucket(m) in bs then m.qty else 0)
      - (if m.from.Some? && FromBucket(m) in bs then m.qty else 0)
    decreases |bs|
  {
    if bs != {} {
      var b :| b in bs;
      TotalStep(h, m, bs - {b});
      TotalRemove(h, bs, b);
      TotalRemove(h + [m], bs, b);
      FoldOne(h, m, b);
    }
  }

  /**
   * Conservation: the stock of a variant over all its buckets is exactly what came in from
   * outside less what left, so a two-sided movement (transfer, reservation, release, repair)
   * never creates or destroys stock.
   */
  lemma {:induction false} StockIsConserved(h: seq<Movement>, variant: Id, bs: set<Bucket>)
    requires Covers(bs, h, variant)
    ensures Total(h, bs) == Intake(h, variant)
  {
    if h == [] {
      TotalOfNothing(bs);
    } else {
      var m := h[|h| - 1];
      var front := h[..|h| - 1];
      assert Covers(bs, front, variant);
      StockIsConserved(front, variant, bs);
      TotalStep(front, m, bs);
      assert front + [m] == h;
    }
  }

  lemma {:induction false} TotalOfNothing(bs: set<Bucket>)
    ensures Total([], bs) == 0
    decreases |bs|
  {
    if bs != {} {
      var b :| b in bs;
      TotalRemove([], bs, b);
      TotalOfNothing(bs - {b});
    }
  }

  // ---------------------------------------------------------------- posting

  function Ids(h: seq<Movement>): set<Id> {
    if h == [] then {} else Ids(h[..|h| - 1]) + {h[|h| - 1].id}
  }

  lemma {:induction false} IdsAppend(g: seq<Movement>, h: seq<Movement>)
    ensures Ids(g + h) == Ids(g) + Ids(h)
  {
    if h == [] {
      assert g + h == g;
    } else {
      IdsAppend(g, h[..|h| - 1]);
      assert (g + h)[..|g + h| - 1] == g + h[..|h| - 1];
    }
  }

  lemma IdsOne(m: Movement)
    ensures Ids([m]) == {m.id}
  {
    assert [m][..0] == [];
  }

  lemma {:induction false} IdAt(h: seq<Movement>, i: nat)
    requires i < |h|
    ensures h[i].id in Ids(h)
  {
    if i < |h| - 1 {
      IdAt(h[..|h| - 1], i);
    }
  }

  /** Why the ledger holding history `h` refuses `m`, if it does. */
  function Refusal(h: seq<Movement>, allowNegative: bool, m: Movement): Option<LedgerError> {
    if m.id in Ids(h) then Some(DuplicateMovement)
    else if ShapeError(m).Some? then ShapeError(m)
    else if m.from.Some? && !allowNegative && Fold(h, FromBucket(m)) < m.qty then Some(InsufficientStock)
    else None
  }

  ghost predicate NonNegative(h: seq<Movement>) {
    forall b :: Fold(h, b) >= 0
  }

  /** A movement the strict ledger accepts keeps every level non-negative. */
  lemma AcceptedKeepsNonNegative(h: seq<Movement>, m: Movement)
    requires NonNegative(h) && Refusal(h, false, m).None?
    ensures NonNegative(h + [m])
  {
    forall b ensures Fold(h + [m], b) >= 0 {
      FoldOne(h, m, b);
    }
  }

  /** No id occurs twice. */
  predicate DistinctIds(h: seq<Movement>) {
    h == [] || (DistinctIds(h[..|h| - 1]) && h[|h| - 1].id !in Ids(h[..|h| - 1]))
  }

  lemma {:induction false} DistinctAppend(g: seq<Movement>, h: seq<Movement>)
    ensures DistinctIds(g + h) <==> DistinctIds(g) && DistinctIds(h) && Ids(g) !! Ids(h)
  {
    if h == [] {
      assert g + h == g;
    } else {
      DistinctAppend(g, h[..|h| - 1]);
      IdsAppend(g, h[..|h| - 1]);
      assert (g + h)[..|g + h| - 1] == g + h[..|h| - 1];
    }
  }

  predicate WellShaped(h: seq<Movement>) {
    h == [] || (WellShaped(h[..|h| - 1]) && ShapeError(h[|h| - 1]).None?)
  }

  lemma {:induction false} WellShapedAppend(g: seq<Movement>, h: seq<Movement>)
    ensures WellShaped(g + h) <==> WellShaped(g) && WellShaped(h)
  {
    if h == [] {
      assert g + h == g;
    } else {
      WellShapedAppend(g, h[..|h| - 1]);
      assert (g + h)[..|g + h| - 1] == g + h[..|h| - 1];
    }
  }

  lemma {:induction false} WellShapedAt(h: seq<Movement>, i: nat)
    requires WellShaped(h) && i < |h|
    ensures ShapeError(h[i]).None?
    ensures NeedsApproval(h[i].kind) ==> h[i].approval.Some?
  {
    if i < |h| - 1 {
      WellShapedAt(h[..|h| - 1], i);
    }
  }

  /** How many leading movements of `ms`, from the `i`-th on, a replaying ledger takes before it refuses one. */
  function AcceptedFrom(h: seq<Movement>, ms: seq<Movement>, i: nat): (k: nat)
    requires i <= |ms|
    ensures i <= k <= |ms|
    ensures k < |ms| ==> Refusal(h + ms[..k], true, ms[k]).Some?
    ensures forall j :: i <= j < k ==> Refusal(h + ms[..j], true, ms[j]).None?
    decreases |ms| - i
  {
    if i == |ms| || Refusal(h + ms[..i], true, ms[i]).Some? then i else AcceptedFrom(h, ms, i + 1)
  }

  function Accepted(h: seq<Movement>, ms: seq<Movement>): nat {
    AcceptedFrom(h, ms, 0)
  }

  lemma {:induction false} AcceptsFromIff(h: seq<Movement>, ms: seq<Movement>, i: nat)
    requires i <= |ms|
    ensures AcceptedFrom(h, ms, i) == |ms| <==>
      DistinctIds(ms[i..]) && WellShaped(ms[i..]) && Ids(h + ms[..i]) !! Ids(ms[i..])
    decreases |ms| - i
  {
    if i < |ms| {
      var m, rest := ms[i], ms[i + 1..];
      assert [m][..0] == [];
      AcceptsFromIff(h, ms, i + 1);
      assert ms[i..] == [m] + rest;
      assert h + ms[..i + 1] == h + ms[..i] + [m];
      IdsAppend(h + ms[..i], [m]);
      IdsAppend([m], rest);
      DistinctAppend([m], rest);
      WellShapedAppend([m], rest);
    }
  }

  /** Taking everything means distinct, well-shaped movements the ledger has not seen, and conversely. */
  lemma {:induction false} AcceptsAllIff(h: seq<Movement>, ms: seq<Movement>)
    ensures Accepted(h, ms) == |ms| <==> DistinctIds(ms) && WellShaped(ms) && Ids(h) !! Ids(ms)
  {
    AcceptsFromIff(h, ms, 0);
    assert ms[0..] == ms && h + ms[..0] == h;
  }

  /** A bucket never written holds nothing. */
  function LevelIn(levels: map<Bucket, int>, b: Bucket): int {
    if b in levels then levels[b] else 0
  }

  function Adjust(levels: map<Bucket, int>, b: Bucket, amount: int): (r: map<Bucket, int>)
    ensures forall c :: LevelIn(r, c) == LevelIn(levels, c) + (if c == b then amount else 0)
  {
    levels[b := LevelIn(levels, b) + amount]
  }

  function Inputs(h: seq<Posted>): (ms: seq<Movement>)
    ensures |ms| == |h|
    ensures forall i :: 0 <= i < |h| ==> ms[i] == h[i].movement
  {
    seq(|h|, i requires 0 <= i < |h| => h[i].movement)
  }

  /** The running fields of a ledger are what its history says they should be. */
  ghost predicate Consistent(levels: map<Bucket, int>, posted: seq<Posted>, seenIds: set<Id>, allowNegative: bool) {
    var h := Inputs(posted);
    && seenIds == Ids(h)
    && (forall i :: 0 <= i < |posted| ==> posted[i].seqNo == i + 1)
    && Tracks(levels, h)
    && DistinctIds(h)
    && WellShaped(h)
    && (!allowNegative ==> NonNegative(h))
  }

  ghost predicate Tracks(levels: map<Bucket, int>, h: seq<Movement>) {
    forall b :: LevelIn(levels, b) == Fold(h, b)
  }

  /** Debit the source bucket, then credit the destination bucket. */
  function Moved(levels: map<Bucket, int>, m: Movement): (r: map<Bucket, int>)
    ensures forall b :: LevelIn(r, b) == LevelIn(levels, b) + Delta(m, b)
  {
    var debited := if m.from.Some? then Adjust(levels, FromBucket(m), -m.qty) else levels;
    if m.to.Some? then Adjust(debited, ToBucket(m), m.qty) else debited
  }

  lemma TracksMoved(levels: map<Bucket, int>, h: seq<Movement>, m: Movement)
    requires Tracks(levels, h)
    ensures Tracks(Moved(levels, m), h + [m])
  {
    forall b ensures LevelIn(Moved(levels, m), b) == Fold(h + [m], b) {
      FoldOne(h, m, b);
    }
  }

  lemma PostKeepsConsistent(levels: map<Bucket, int>, posted: seq<Posted>, seenIds: set<Id>,
                            allowNegative: bool, m: Movement)
    requires Consistent(levels, posted, seenIds, allowNegative)
    requires Refusal(Inputs(posted), allowNegative, m).None?
    ensures Consistent(Moved(levels, m), posted + [Posted(m, |posted| + 1)], seenIds + {m.id}, allowNegative)
    ensures Inputs(posted + [Posted(m, |posted| + 1)]) == Inputs(posted) + [m]
  {
    var h := Inputs(posted);
    assert Inputs(posted + [Posted(m, |posted| + 1)]) == h + [m];
    assert (h + [m])[..|h + [m]| - 1] == h;
    TracksMoved(levels, h, m);
    if !allowNegative {
      AcceptedKeepsNonNegative(h, m);
    }
  }

  /** `InventoryLedger`: running levels per bucket beside the append-only history they come from. */
  class InventoryLedger {
    var levels: map<Bucket, int>
    var movements: seq<Posted>
    var seenIds: set<Id>
    const allowNegative: bool

    ghost predicate Valid()
      reads this
    {
      Consistent(levels, movements, seenIds, allowNegative)
    }

    function History(): seq<Movement>
      reads this
    {
      Inputs(movements)
    }

    constructor (allowNegative: bool)
      ensures Valid() && History() == [] && this.allowNegative == allowNegative
    {
      this.allowNegative := allowNegative;
      levels, movements, seenIds := map[], [], {};
    }

    /** Post one movement, or refuse it and leave the ledger untouched. */
    method Post(m: Movement) returns (r: Result<Posted, LedgerError>)
      requires Valid()
      modifies this
      ensures Valid()
      ensures Refusal(old(History()), allowNegative, m).Some? ==>
        r == Err(Refusal(old(History()), allowNegative, m).value) && History() == old(History())
      ensures Refusal(old(History()), allowNegative, m).None? ==>
        r == Ok(Posted(m, |old(History())| + 1)) && History() == old(History()) + [m]
    {
      hide Fold, Ids, DistinctIds, WellShaped, NonNegative, ShapeError, Moved, LevelIn;
      if m.id in seenIds {
        return Err(DuplicateMovement);
      }
      var shape := ShapeError(m);
      if shape.Some? {
        return Err(shape.value);
      }
      if m.from.Some? && !allowNegative && LevelIn(levels, FromBucket(m)) - m.qty < 0 {
        return Err(InsufficientStock);
      }
      PostKeepsConsistent(levels, movements, seenIds, allowNegative, m);
      levels := Moved(levels, m);
      var posted := Posted(m, |movements| + 1);
      movements := movements + [posted];
      seenIds := seenIds + {m.id};
      r := Ok(posted);
    }

    method Level(variant: Id, location: Id, state: StockState) returns (q: int)
      requires Valid()
      ensures q == Fold(History(), Bucket(variant, location, state))
    {
      q := LevelIn(levels, Bucket(variant, location, state));
    }

    /** Post movements one by one until one is refused; the earlier ones stay. */
    method PostAll(ms: seq<Movement>) returns (failure: Option<LedgerError>)
      requires Valid() && allowNegative
      modifies this
      ensures Valid()
      ensures History() == old(History()) + ms[..Accepted(old(History()), ms)]
      ensures failure.None? <==> Accepted(old(History()), ms) == |ms|
    {
      hide Consistent, ShapeError, Refusal, Inputs, Fold;
      ghost var h := History();
      failure := None;
      var i := 0;
      while i < |ms|
        invariant 0 <= i <= |ms|
        invariant Valid() && History() == h + ms[..i]
        invariant Accepted(h, ms) == AcceptedFrom(h, ms, i)
      {
        var r := Post(ms[i]);
        if r.Err? {
          return Some(r.error);
        }
        assert h + ms[..i] + [ms[i]] == h + ms[..i + 1];
        i := i + 1;
      }
    }
  }

  /** `InventoryLedger.replay`: a ledger rebuilt from history alone has the history's levels. */
  method Replay(history: seq<Movement>) returns (ledger: InventoryLedger, failure: Option<LedgerError>)
    ensures fresh(ledger) && ledger.Valid() && ledger.allowNegative
    ensures failure.None? <==> DistinctIds(history) && WellShaped(history)
    ensures failure.None? ==> ledger.History() == history
  {
    ledger := new InventoryLedger(true);
    failure := ledger.PostAll(history);
    AcceptsAllIff([], history);
    assert [] + history[..|history|] == history;
  }
}
