/** Ledger and levels, units and buckets, transfers and the stock they carry: what every operation keeps. */
module StockUnits {
  import opened Common
  import opened Ledger
  import opened Serialized
  import opened StockModel

  // ---------------------------------------------------------------- the ledger and its levels

  ghost predicate LedgerOk(s: Stock) {
    Tracks(s.levels, s.movements) && DistinctIds(s.movements) && WellShaped(s.movements) && NonNegative(s.movements)
  }

  /** The database accepts exactly the movements the strict in-memory ledger accepts, and tracks it. */
  lemma PostRefinesLedger(s: Stock, m: Movement)
    requires LedgerOk(s)
    ensures PostTo(s, m).Ok? <==> Refusal(s.movements, false, m).None?
    ensures PostTo(s, m).Ok? ==> LedgerOk(PostTo(s, m).value) && PostTo(s, m).value.movements == s.movements + [m]
  {
    if m.from.Some? {
      assert LevelIn(s.levels, FromBucket(m)) == Fold(s.movements, FromBucket(m));
    }
    if PostTo(s, m).Ok? {
      TracksMoved(s.levels, s.movements, m);
      AcceptedKeepsNonNegative(s.movements, m);
      assert (s.movements + [m])[..|s.movements|] == s.movements;
    }
  }

  /** What a movement posted to the tables leaves behind. */
  lemma SettleEffect(t: Tables, m: Movement)
    requires LedgerOk(t.stock) && Settle(t, m).Ok?
    ensures var r := Settle(t, m).value;
      && LedgerOk(r.stock) && r.stock.movements == t.stock.movements + [m]
      && r == t.(stock := r.stock) && ShapeError(m).None?
  {
    hide LedgerOk, ShapeError, Moved;
    PostRefinesLedger(t.stock, m);
  }

  /** A debit the source bucket covers, with a fresh id and a proper shape, always posts. */
  lemma CoveredPosts(t: Tables, m: Movement)
    requires LedgerOk(t.stock) && ShapeError(m).None? && m.id !in Ids(t.stock.movements)
    requires m.from.Some? ==> Fold(t.stock.movements, FromBucket(m)) >= m.qty
    ensures Settle(t, m).Ok?
  {
    hide ShapeError, Fold, Ids;
    PostRefinesLedger(t.stock, m);
  }

  /** Ids drawn from here on are new to the ledger and different from each other. */
  ghost predicate FreshIds(uuid: nat -> Id, ms: seq<Movement>) {
    && (forall i: nat :: i >= |ms| ==> uuid(i) !in Ids(ms))
    && (forall i: nat, j: nat :: |ms| <= i < j ==> uuid(i) != uuid(j))
  }

  lemma FreshAfter(uuid: nat -> Id, ms: seq<Movement>, m: Movement)
    requires FreshIds(uuid, ms) && m.id == uuid(|ms|)
    ensures FreshIds(uuid, ms + [m])
  {
    assert (ms + [m])[..|ms|] == ms;
  }

  // ---------------------------------------------------------------- counting units

  predicate Matches(u: StockUnit, variant: Id, location: Id, state: UnitState) {
    u.variant == variant && u.location == Some(location) && u.state == state
  }

  function Count(units: seq<StockUnit>, variant: Id, location: Id, state: UnitState): nat {
    if units == [] then 0
    else
      var front := Count(units[..|units| - 1], variant, location, state);
      if Matches(units[|units| - 1], variant, location, state) then front + 1 else front
  }

  lemma {:induction false} CountUpdate(units: seq<StockUnit>, i: nat, u: StockUnit, variant: Id, location: Id, state: UnitState)
    requires i < |units|
    ensures Count(units[i := u], variant, location, state) == Count(units, variant, location, state)
      - (if Matches(units[i], variant, location, state) then 1 else 0)
      + (if Matches(u, variant, location, state) then 1 else 0)
  {
    var front := units[..|units| - 1];
    if i < |front| {
      CountUpdate(front, i, u, variant, location, state);
      assert units[i := u][..|front|] == front[i := u];
    } else {
      assert units[i := u][..|front|] == front;
    }
  }

  lemma {:induction false} CountPush(units: seq<StockUnit>, u: StockUnit, variant: Id, location: Id, state: UnitState)
    ensures Count(units + [u], variant, location, state) ==
      Count(units, variant, location, state) + (if Matches(u, variant, location, state) then 1 else 0)
  {
    assert (units + [u])[..|units|] == units;
  }

  lemma {:induction false} FindUpdate(units: seq<StockUnit>, i: nat, u: StockUnit, id: Id)
    requires i < |units| && u.id == units[i].id
    ensures Find(units[i := u], id) == Find(units, id)
  {
    var front := units[..|units| - 1];
    if i < |front| {
      FindUpdate(front, i, u, id);
      assert units[i := u][..|front|] == front[i := u];
    } else {
      assert units[i := u][..|front|] == front;
    }
  }

  lemma {:induction false} FindPush(units: seq<StockUnit>, u: StockUnit, id: Id)
    ensures Find(units + [u], id) == if u.id == id then Some(|units|) else Find(units, id)
  {
    assert (units + [u])[..|units|] == units;
  }

  // ---------------------------------------------------------------- units and buckets agree

  /** Units in stock are the sellable and the reserved stock; units under way and in repair fill their buckets. */
  ghost predicate AgreesAt(ms: seq<Movement>, units: seq<StockUnit>, v: Id, l: Id) {
    && Fold(ms, Bucket(v, l, OnHand)) + Fold(ms, Bucket(v, l, Reserved)) == WHOLE * Count(units, v, l, InStock)
    && Fold(ms, Bucket(v, l, InTransit)) == WHOLE * Count(units, v, l, OnTheWay)
    && Fold(ms, Bucket(v, l, Damaged)) == WHOLE * Count(units, v, l, InRepair)
  }

  ghost predicate Agrees(shop: Shop, ms: seq<Movement>, units: seq<StockUnit>) {
    forall v, l :: shop.Serialized(v) ==> AgreesAt(ms, units, v, l)
  }

  /** The bucket a unit in this state is counted in, for the states the tracked operations use. */
  function BucketState(s: UnitState): Option<StockState> {
    match s
    case InStock => Some(OnHand)
    case OnTheWay => Some(InTransit)
    case InRepair => Some(Damaged)
    case _ => None
  }

  /** The movement takes one unit from the bucket of its old state and place to that of its new ones. */
  predicate Follows(m: Movement, u: StockUnit, state: UnitState, location: Id) {
    && m.variant == u.variant && m.qty == WHOLE
    && u.location.Some? && BucketState(u.state).Some? && BucketState(state).Some?
    && m.from == Some(BucketRef(u.location.value, BucketState(u.state).value))
    && m.to == Some(BucketRef(location, BucketState(state).value))
  }

  lemma UnitMoveAgreesAt(ms: seq<Movement>, units: seq<StockUnit>, i: nat, state: UnitState, location: Id,
                         m: Movement, v: Id, l: Id)
    requires i < |units| && Follows(m, units[i], state, location) && AgreesAt(ms, units, v, l)
    ensures AgreesAt(ms + [m], units[i := MovedUnit(units[i], state, location)], v, l)
  {
    hide Count, Fold;
    var u := MovedUnit(units[i], state, location);
    CountUpdate(units, i, u, v, l, InStock);
    CountUpdate(units, i, u, v, l, OnTheWay);
    CountUpdate(units, i, u, v, l, InRepair);
    FoldOne(ms, m, Bucket(v, l, OnHand));
    FoldOne(ms, m, Bucket(v, l, Reserved));
    FoldOne(ms, m, Bucket(v, l, InTransit));
    FoldOne(ms, m, Bucket(v, l, Damaged));
  }

  /** One lemma for dispatch, landing and both repair legs: a unit and its movement go together. */
  lemma UnitMoveAgrees(shop: Shop, ms: seq<Movement>, units: seq<StockUnit>, i: nat, state: UnitState, location: Id, m: Movement)
    requires i < |units| && Follows(m, units[i], state, location) && Agrees(shop, ms, units)
    ensures Agrees(shop, ms + [m], units[i := MovedUnit(units[i], state, location)])
  {
    hide AgreesAt, Follows;
    var ms', units' := ms + [m], units[i := MovedUnit(units[i], state, location)];
    forall v, l | shop.Serialized(v) ensures AgreesAt(ms', units', v, l) {
      UnitMoveAgreesAt(ms, units, i, state, location, m, v, l);
    }
  }

  /** The movement leaves units alone: its variant is not serialized, or it only (un)reserves in place. */
  predicate LeavesUnits(shop: Shop, m: Movement) {
    !shop.Serialized(m.variant)
    || (m.from.Some? && m.to.Some? && m.from.value.location == m.to.value.location
        && (m.from.value.state == OnHand || m.from.value.state == StockState.Reserved)
        && (m.to.value.state == OnHand || m.to.value.state == StockState.Reserved))
  }

  lemma PlainMoveAgrees(shop: Shop, ms: seq<Movement>, units: seq<StockUnit>, m: Movement)
    requires LeavesUnits(shop, m) && Agrees(shop, ms, units)
    ensures Agrees(shop, ms + [m], units)
  {
    hide Count, Fold;
    var ms' := ms + [m];
    forall v, l | shop.Serialized(v) ensures AgreesAt(ms', units, v, l) {
      assert AgreesAt(ms, units, v, l);
      FoldOne(ms, m, Bucket(v, l, OnHand));
      FoldOne(ms, m, Bucket(v, l, Reserved));
      FoldOne(ms, m, Bucket(v, l, InTransit));
      FoldOne(ms, m, Bucket(v, l, Damaged));
    }
  }

  lemma NewUnitAgreesAt(ms: seq<Movement>, units: seq<StockUnit>, u: StockUnit, m: Movement, v: Id, l: Id)
    requires u.state == InStock && u.location.Some? && m.variant == u.variant && m.qty == WHOLE
    requires m.from.None? && m.to == Some(BucketRef(u.location.value, OnHand))
    requires AgreesAt(ms, units, v, l)
    ensures AgreesAt(ms + [m], units + [u], v, l)
  {
    hide Count, Fold;
    CountPush(units, u, v, l, InStock);
    CountPush(units, u, v, l, OnTheWay);
    CountPush(units, u, v, l, InRepair);
    FoldOne(ms, m, Bucket(v, l, OnHand));
    FoldOne(ms, m, Bucket(v, l, Reserved));
    FoldOne(ms, m, Bucket(v, l, InTransit));
    FoldOne(ms, m, Bucket(v, l, Damaged));
  }

  // ---------------------------------------------------------------- open transfers

  predicate Open(transfers: map<Id, Transfer>, m: Movement) {
    m.kind == TransferOut && m.reference.kind == "transfer"
    && m.reference.id in transfers && !transfers[m.reference.id].received
  }

  /** How much of the variant is under way to the place, over all transfers not yet received. */
  function OpenQty(ms: seq<Movement>, transfers: map<Id, Transfer>, v: Id, l: Id): int {
    if ms == [] then 0
    else
      var m := ms[|ms| - 1];
      OpenQty(ms[..|ms| - 1], transfers, v, l)
      + (if Open(transfers, m) && m.variant == v && m.to == Some(BucketRef(l, InTransit)) then m.qty else 0)
  }

  /** How many transfers not yet received carry the unit. */
  function LegCount(ms: seq<Movement>, transfers: map<Id, Transfer>, unit: Id): nat {
    if ms == [] then 0
    else
      var m := ms[|ms| - 1];
      LegCount(ms[..|ms| - 1], transfers, unit) + (if Open(transfers, m) && m.unit == Some(unit) then 1 else 0)
  }

  predicate OnWay(units: seq<StockUnit>, unit: Id) {
    Find(units, unit).Some? && units[Find(units, unit).value].state == OnTheWay
  }

  /** The unit is under way to this place. */
  predicate HeadsFor(units: seq<StockUnit>, unit: Id, variant: Id, to: Id) {
    Find(units, unit).Some?
    && (var u := units[Find(units, unit).value];
        u.variant == variant && u.state == OnTheWay && u.location == Some(to))
  }

  /** A dispatch movement belongs to a known transfer; while that is open, a named unit is under way to its end. */
  predicate LegOk(shop: Shop, m: Movement, units: seq<StockUnit>, transfers: map<Id, Transfer>) {
    m.kind == TransferOut ==>
      && m.reference.kind == "transfer" && m.reference.id in transfers
      && m.to == Some(BucketRef(transfers[m.reference.id].to, InTransit))
      && (m.unit.Some? <==> shop.Serialized(m.variant))
      && (m.unit.Some? ==> m.qty == WHOLE)
      && (m.unit.Some? && Open(transfers, m) ==>
            HeadsFor(units, m.unit.value, m.variant, transfers[m.reference.id].to))
  }

  ghost predicate LegsOk(shop: Shop, ms: seq<Movement>, units: seq<StockUnit>, transfers: map<Id, Transfer>) {
    forall i :: 0 <= i < |ms| ==> LegOk(shop, ms[i], units, transfers)
  }

  /** Each unit under way is in exactly one transfer not yet received, and no other unit is in any. */
  ghost predicate Carried(ms: seq<Movement>, units: seq<StockUnit>, transfers: map<Id, Transfer>) {
    forall u :: LegCount(ms, transfers, u) == if OnWay(units, u) then 1 else 0
  }

  /** The stock under way to a place is what open transfers sent there. */
  ghost predicate Transit(ms: seq<Movement>, transfers: map<Id, Transfer>) {
    forall v, l :: Fold(ms, Bucket(v, l, InTransit)) == OpenQty(ms, transfers, v, l)
  }

  ghost predicate TransfersOk(shop: Shop, ms: seq<Movement>, units: seq<StockUnit>, transfers: map<Id, Transfer>) {
    LegsOk(shop, ms, units, transfers) && Carried(ms, units, transfers) && Transit(ms, transfers)
  }

  ghost predicate UnitsSound(shop: Shop, t: Tables) {
    && LedgerOk(t.stock)
    && Agrees(shop, t.stock.movements, t.units)
    && TransfersOk(shop, t.stock.movements, t.units, t.transfers)
  }

  lemma {:induction false} OpenQtyPush(ms: seq<Movement>, m: Movement, transfers: map<Id, Transfer>, v: Id, l: Id)
    ensures OpenQty(ms + [m], transfers, v, l) == OpenQty(ms, transfers, v, l)
      + (if Open(transfers, m) && m.variant == v && m.to == Some(BucketRef(l, InTransit)) then m.qty else 0)
  {
    assert (ms + [m])[..|ms|] == ms;
  }

  lemma {:induction false} LegCountPush(ms: seq<Movement>, m: Movement, transfers: map<Id, Transfer>, u: Id)
    ensures LegCount(ms + [m], transfers, u) ==
      LegCount(ms, transfers, u) + (if Open(transfers, m) && m.unit == Some(u) then 1 else 0)
  {
    assert (ms + [m])[..|ms|] == ms;
  }

  lemma {:induction false} LegIsCounted(ms: seq<Movement>, i: nat, transfers: map<Id, Transfer>, u: Id)
    requires i < |ms| && Open(transfers, ms[i]) && ms[i].unit == Some(u)
    ensures LegCount(ms, transfers, u) >= 1
  {
    if i < |ms| - 1 {
      LegIsCounted(ms[..|ms| - 1], i, transfers, u);
    }
  }

  /** A movement that is no dispatch and does not touch stock under way changes nothing about transfers. */
  predicate OffRoad(m: Movement) {
    && m.kind != TransferOut
    && (m.from.Some? ==> m.from.value.state != InTransit)
    && (m.to.Some? ==> m.to.value.state != InTransit)
  }

  lemma OffRoadTransit(ms: seq<Movement>, m: Movement, transfers: map<Id, Transfer>)
    requires OffRoad(m) && Transit(ms, transfers)
    ensures Transit(ms + [m], transfers)
  {
    hide Fold, OpenQty;
    forall v, l ensures Fold(ms + [m], Bucket(v, l, InTransit)) == OpenQty(ms + [m], transfers, v, l) {
      FoldOne(ms, m, Bucket(v, l, InTransit));
      OpenQtyPush(ms, m, transfers, v, l);
    }
  }

  lemma OffRoadCarried(ms: seq<Movement>, m: Movement, units: seq<StockUnit>, transfers: map<Id, Transfer>)
    requires m.kind != TransferOut && Carried(ms, units, transfers)
    ensures Carried(ms + [m], units, transfers)
  {
    hide LegCount;
    forall u ensures LegCount(ms + [m], transfers, u) == if OnWay(units, u) then 1 else 0 {
      LegCountPush(ms, m, transfers, u);
    }
  }

  /** Posting such a movement keeps the transfer invariants. */
  lemma OffRoadKeeps(shop: Shop, ms: seq<Movement>, m: Movement, units: seq<StockUnit>, transfers: map<Id, Transfer>)
    requires OffRoad(m) && TransfersOk(shop, ms, units, transfers)
    ensures TransfersOk(shop, ms + [m], units, transfers)
  {
    hide HeadsFor, Transit, Carried;
    OffRoadTransit(ms, m, transfers);
    OffRoadCarried(ms, m, units, transfers);
  }

  /** Changing a unit that is not under way, to a state that is not, keeps the transfer invariants. */
  lemma StandingUnitKeeps(shop: Shop, ms: seq<Movement>, units: seq<StockUnit>, transfers: map<Id, Transfer>, i: nat, u: StockUnit)
    requires TransfersOk(shop, ms, units, transfers)
    requires i < |units| && Find(units, u.id) == Some(i) && u.id == units[i].id
    requires units[i].state != OnTheWay && u.state != OnTheWay
    ensures TransfersOk(shop, ms, units[i := u], transfers)
  {
    hide LegCount, Find, Transit;
    var after := units[i := u];
    forall j | 0 <= j < |ms| ensures LegOk(shop, ms[j], after, transfers) {
      assert LegOk(shop, ms[j], units, transfers);
      if ms[j].unit.Some? {
        FindUpdate(units, i, u, ms[j].unit.value);
      }
    }
    forall w ensures LegCount(ms, transfers, w) == if OnWay(after, w) then 1 else 0 {
      FindUpdate(units, i, u, w);
      assert OnWay(after, w) <==> OnWay(units, w) by {
        if Find(units, w).Some? && Find(units, w).value == i {
          assert w == u.id;
        }
      }
    }
  }

  /** A newly received unit is in no transfer. */
  lemma {:induction false} NewUnitKeeps(shop: Shop, ms: seq<Movement>, units: seq<StockUnit>, transfers: map<Id, Transfer>, u: StockUnit)
    requires TransfersOk(shop, ms, units, transfers) && Find(units, u.id).None? && u.state != OnTheWay
    ensures TransfersOk(shop, ms, units + [u], transfers)
  {
    hide LegCount, Find, Transit;
    var after := units + [u];
    forall j | 0 <= j < |ms| ensures LegOk(shop, ms[j], after, transfers) {
      assert LegOk(shop, ms[j], units, transfers);
      if ms[j].unit.Some? {
        FindPush(units, u, ms[j].unit.value);
      }
    }
    forall w ensures LegCount(ms, transfers, w) == if OnWay(after, w) then 1 else 0 {
      FindPush(units, u, w);
    }
  }

  // ---------------------------------------------------------------- plain movements, receipts and repairs

  lemma PlainSettleKeeps(shop: Shop, t: Tables, m: Movement)
    requires UnitsSound(shop, t) && Settle(t, m).Ok? && LeavesUnits(shop, m) && OffRoad(m)
    ensures UnitsSound(shop, Settle(t, m).value)
  {
    hide LedgerOk, ShapeError, Agrees, TransfersOk, PostTo;
    SettleEffect(t, m);
    PlainMoveAgrees(shop, t.stock.movements, t.units, m);
    OffRoadKeeps(shop, t.stock.movements, m, t.units, t.transfers);
  }

  lemma ReceiveUnitKeeps(shop: Shop, t: Tables, grn: Id, location: Id, variant: Id, n: NewUnit,
                         uuid: nat -> Id, unitId: nat -> Id)
    requires UnitsSound(shop, t) && ReceiveUnit(t, grn, location, variant, n, uuid, unitId).Ok?
    ensures UnitsSound(shop, ReceiveUnit(t, grn, location, variant, n, uuid, unitId).value)
  {
    hide LedgerOk, ShapeError, TransfersOk, PostTo, ValidImei, ImeiTaken, SerialTaken, Find, AgreesAt;
    var u := StockUnit(unitId(|t.stock.movements|), variant, n.imei1, n.imei2, n.serial, InStock, Some(location));
    var m := ReceiptOf(grn, location, variant, Some(u.id), WHOLE, NextId(t, uuid));
    SettleEffect(t.(units := t.units + [u]), m);
    var ms', units' := t.stock.movements + [m], t.units + [u];
    forall v, l | shop.Serialized(v) ensures AgreesAt(ms', units', v, l) {
      NewUnitAgreesAt(t.stock.movements, t.units, u, m, v, l);
    }
    NewUnitKeeps(shop, t.stock.movements, t.units, t.transfers, u);
    OffRoadKeeps(shop, t.stock.movements, m, t.units + [u], t.transfers);
  }

  lemma {:induction false} ReceiveUnitsKeep(shop: Shop, t: Tables, grn: Id, location: Id, variant: Id, ns: seq<NewUnit>,
                                            uuid: nat -> Id, unitId: nat -> Id)
    requires UnitsSound(shop, t) && ReceiveUnits(t, grn, location, variant, ns, uuid, unitId).Ok?
    ensures UnitsSound(shop, ReceiveUnits(t, grn, location, variant, ns, uuid, unitId).value)
  {
    hide UnitsSound, ReceiveUnit;
    if ns != [] {
      ReceiveUnitsKeep(shop, t, grn, location, variant, ns[..|ns| - 1], uuid, unitId);
      var done := ReceiveUnits(t, grn, location, variant, ns[..|ns| - 1], uuid, unitId).value;
      ReceiveUnitKeeps(shop, done, grn, location, variant, ns[|ns| - 1], uuid, unitId);
    }
  }

  lemma ReceiveOneKeeps(shop: Shop, t: Tables, grn: Id, location: Id, line: ReceiveLine, uuid: nat -> Id, unitId: nat -> Id)
    requires UnitsSound(shop, t) && ReceiveOne(shop, t, grn, location, line, uuid, unitId).Ok?
    ensures UnitsSound(shop, ReceiveOne(shop, t, grn, location, line, uuid, unitId).value)
  {
    hide UnitsSound, ReceiveUnits, Settle;
    if shop.Serialized(line.variant) {
      ReceiveUnitsKeep(shop, t, grn, location, line.variant, line.units, uuid, unitId);
    } else {
      PlainSettleKeeps(shop, t, ReceiptOf(grn, location, line.variant, None, line.qty.value, NextId(t, uuid)));
    }
  }

  lemma {:induction false} ReceiveLinesKeep(shop: Shop, t: Tables, grn: Id, location: Id, lines: seq<ReceiveLine>,
                                            uuid: nat -> Id, unitId: nat -> Id)
    requires UnitsSound(shop, t) && ReceiveLines(shop, t, grn, location, lines, uuid, unitId).Ok?
    ensures UnitsSound(shop, ReceiveLines(shop, t, grn, location, lines, uuid, unitId).value)
  {
    hide UnitsSound, ReceiveOne;
    if lines != [] {
      ReceiveLinesKeep(shop, t, grn, location, lines[..|lines| - 1], uuid, unitId);
      var done := ReceiveLines(shop, t, grn, location, lines[..|lines| - 1], uuid, unitId).value;
      ReceiveOneKeeps(shop, done, grn, location, lines[|lines| - 1], uuid, unitId);
    }
  }

  /** Changing a standing unit together with the movement that follows it. */
  lemma StandingMoveKeeps(shop: Shop, t: Tables, i: nat, state: UnitState, location: Id, m: Movement)
    requires UnitsSound(shop, t) && i < |t.units| && Find(t.units, t.units[i].id) == Some(i)
    requires Follows(m, t.units[i], state, location) && OffRoad(m)
    requires t.units[i].state != OnTheWay && state != OnTheWay
    requires Settle(t.(units := t.units[i := MovedUnit(t.units[i], state, location)]), m).Ok?
    ensures UnitsSound(shop, Settle(t.(units := t.units[i := MovedUnit(t.units[i], state, location)]), m).value)
  {
    hide LedgerOk, ShapeError, TransfersOk, PostTo, Find, Agrees, Follows, Settle, OffRoad;
    var u := MovedUnit(t.units[i], state, location);
    var staged := t.(units := t.units[i := u]);
    SettleEffect(staged, m);
    UnitMoveAgrees(shop, t.stock.movements, t.units, i, state, location, m);
    StandingUnitKeeps(shop, t.stock.movements, t.units, t.transfers, i, u);
    OffRoadKeeps(shop, t.stock.movements, m, t.units[i := u], t.transfers);
  }

  lemma {:induction false} FindIsStable(units: seq<StockUnit>, id: Id)
    requires Find(units, id).Some?
    ensures Find(units, units[Find(units, id).value].id) == Find(units, id)
  {
  }

  /** Bringing a unit back from repair keeps everything. */
  lemma BackFromRepairKeeps(shop: Shop, t: Tables, unit: Id, uuid: nat -> Id)
    requires UnitsSound(shop, t) && BackFromRepair(t, unit, uuid).Ok?
    ensures UnitsSound(shop, BackFromRepair(t, unit, uuid).value)
  {
    hide UnitsSound, Settle, Find;
    var i := Find(t.units, unit).value;
    var u := t.units[i];
    FindIsStable(t.units, unit);
    StandingMoveKeeps(shop, t, i, InStock, u.location.value, RepairInOf(u, u.location.value, NextId(t, uuid)));
  }

  /** Sending an in-stock unit to repair keeps everything. */
  lemma {:induction false} SentToRepairKeeps(shop: Shop, t: Tables, unit: Id, uuid: nat -> Id)
    requires UnitsSound(shop, t) && SentToRepair(t, unit, uuid).Ok?
    requires t.units[Find(t.units, unit).value].state == InStock
    ensures UnitsSound(shop, SentToRepair(t, unit, uuid).value)
  {
    hide UnitsSound, Settle, Find;
    var i := Find(t.units, unit).value;
    var u := t.units[i];
    FindIsStable(t.units, unit);
    StandingMoveKeeps(shop, t, i, InRepair, u.location.value, RepairOutOf(u, u.location.value, NextId(t, uuid)));
  }

  lemma {:induction false} RepairCounts(t: Tables, unit: Id, uuid: nat -> Id)
    requires SentToRepair(t, unit, uuid).Ok? && LedgerOk(t.stock)
    ensures Find(t.units, unit).Some?
    ensures var u := t.units[Find(t.units, unit).value];
      var after := SentToRepair(t, unit, uuid).value;
      && u.location.Some? && CanTransition(u.state, InRepair)
      && after.stock.movements == t.stock.movements + [RepairOutOf(u, u.location.value, NextId(t, uuid))]
      && after.units == t.units[Find(t.units, unit).value := MovedUnit(u, InRepair, u.location.value)]
  {
    hide LedgerOk, ShapeError, PostTo, Find;
    var i := Find(t.units, unit).value;
    var u := t.units[i];
    SettleEffect(t.(units := t.units[i := MovedUnit(u, InRepair, u.location.value)]),
                 RepairOutOf(u, u.location.value, NextId(t, uuid)));
  }

  /**
   * The transition table also lets returned and damaged units go to repair, but the movement always
   * takes the stock from the shelf: agreement survives exactly when the unit was in stock.
   */
  lemma {:induction false} RepairKeepsAgreementIff(shop: Shop, t: Tables, unit: Id, uuid: nat -> Id)
    requires UnitsSound(shop, t) && SentToRepair(t, unit, uuid).Ok?
    requires shop.Serialized(t.units[Find(t.units, unit).value].variant)
    ensures Agrees(shop, SentToRepair(t, unit, uuid).value.stock.movements, SentToRepair(t, unit, uuid).value.units)
      <==> t.units[Find(t.units, unit).value].state == InStock
  {
    RepairCounts(t, unit, uuid);
    hide Find, Count, Fold, SentToRepair;
    var i := Find(t.units, unit).value;
    var u := t.units[i];
    if u.state == InStock {
      SentToRepairKeeps(shop, t, unit, uuid);
    } else {
      var l := u.location.value;
      var after := SentToRepair(t, unit, uuid).value;
      assert AgreesAt(t.stock.movements, t.units, u.variant, l);
      CountUpdate(t.units, i, MovedUnit(u, InRepair, l), u.variant, l, InStock);
      FoldOne(t.stock.movements, RepairOutOf(u, l, NextId(t, uuid)), Bucket(u.variant, l, OnHand));
      FoldOne(t.stock.movements, RepairOutOf(u, l, NextId(t, uuid)), Bucket(u.variant, l, Reserved));
      assert !AgreesAt(after.stock.movements, after.units, u.variant, l);
    }
  }

  // ---------------------------------------------------------------- a returned unit that breaks the agreement

  const ONE_VARIANT: Shop := Shop(map["v" := true], map[], ["l"], true)

  const ON_SHELF: StockUnit := StockUnit("a", "v", None, None, Some("1"), InStock, Some("l"))

  const RETURNED: StockUnit := StockUnit("b", "v", None, None, Some("2"), BackForCheck, Some("l"))

  const SHELVED: Movement := ReceiptOf("g", "l", "v", Some("a"), WHOLE, "m0")

  const BROUGHT_BACK: Movement :=
    Movement("m1", ReturnIn, "v", Some("b"), WHOLE, None, Some(BucketRef("l", ReturnedPending)), Reference("refund", "r"), None)

  /** One unit on the shelf, one brought back by a customer and waiting to be checked. */
  const BEFORE_REPAIR: Tables :=
    Tables(Stock(map[Bucket("v", "l", OnHand) := WHOLE, Bucket("v", "l", ReturnedPending) := WHOLE], [SHELVED, BROUGHT_BACK]),
           [ON_SHELF, RETURNED], map[], map[], [], map[])

  lemma {:induction false} TwoMovements(b: Bucket)
    ensures Fold([SHELVED, BROUGHT_BACK], b) == Delta(SHELVED, b) + Delta(BROUGHT_BACK, b)
  {
    hide Delta;
    FoldOne([], SHELVED, b);
    FoldOne([SHELVED], BROUGHT_BACK, b);
    assert [] + [SHELVED] == [SHELVED] && [SHELVED] + [BROUGHT_BACK] == [SHELVED, BROUGHT_BACK];
  }

  lemma {:induction false} TwoUnits(v: Id, l: Id, state: UnitState)
    ensures Count([ON_SHELF, RETURNED], v, l, state) ==
      (if Matches(ON_SHELF, v, l, state) then 1 else 0) + (if Matches(RETURNED, v, l, state) then 1 else 0)
  {
    hide Matches;
    var units := [ON_SHELF, RETURNED];
    assert units[..1] == [ON_SHELF] && [ON_SHELF][..0] == [];
    assert Count([], v, l, state) == 0;
    assert Count([ON_SHELF], v, l, state) == if Matches(ON_SHELF, v, l, state) then 1 else 0;
  }

  lemma BeforeRepairLedger()
    ensures LedgerOk(BEFORE_REPAIR.stock) && Ids(BEFORE_REPAIR.stock.movements) == {"m0", "m1"}
  {
    hide Fold;
    var ms := BEFORE_REPAIR.stock.movements;
    assert ms[..1] == [SHELVED] && [SHELVED][..0] == [];
    IdsOne(SHELVED);
    assert ShapeError(SHELVED).None? && ShapeError(BROUGHT_BACK).None?;
    assert WellShaped([]) && WellShaped([SHELVED]) && WellShaped(ms);
    assert DistinctIds([]) && DistinctIds([SHELVED]) && DistinctIds(ms);
    forall b ensures LevelIn(BEFORE_REPAIR.stock.levels, b) == Fold(ms, b) && Fold(ms, b) >= 0 {
      TwoMovements(b);
    }
  }

  lemma BeforeRepairTransfers()
    ensures TransfersOk(ONE_VARIANT, BEFORE_REPAIR.stock.movements, BEFORE_REPAIR.units, map[])
  {
    hide Fold;
    var ms, units := BEFORE_REPAIR.stock.movements, BEFORE_REPAIR.units;
    assert [] + [SHELVED] == [SHELVED] && [SHELVED] + [BROUGHT_BACK] == ms;
    assert units[..1] == [ON_SHELF] && [ON_SHELF][..0] == [];
    forall u ensures LegCount(ms, map[], u) == if OnWay(units, u) then 1 else 0 {
      LegCountPush([], SHELVED, map[], u);
      LegCountPush([SHELVED], BROUGHT_BACK, map[], u);
    }
    forall v, l ensures Fold(ms, Bucket(v, l, InTransit)) == OpenQty(ms, map[], v, l) {
      TwoMovements(Bucket(v, l, InTransit));
      OpenQtyPush([], SHELVED, map[], v, l);
      OpenQtyPush([SHELVED], BROUGHT_BACK, map[], v, l);
    }
  }

  lemma BeforeRepairIsSound()
    ensures UnitsSound(ONE_VARIANT, BEFORE_REPAIR)
  {
    hide Fold, Count, LedgerOk, TransfersOk;
    BeforeRepairLedger();
    BeforeRepairTransfers();
    forall v, l | ONE_VARIANT.Serialized(v)
      ensures AgreesAt(BEFORE_REPAIR.stock.movements, BEFORE_REPAIR.units, v, l)
    {
      TwoMovements(Bucket(v, l, OnHand));
      TwoMovements(Bucket(v, l, Reserved));
      TwoMovements(Bucket(v, l, InTransit));
      TwoMovements(Bucket(v, l, Damaged));
      TwoUnits(v, l, InStock);
      TwoUnits(v, l, OnTheWay);
      TwoUnits(v, l, InRepair);
    }
  }

  /** Sending the returned unit to repair is let through, takes the other unit's stock off the shelf, and breaks the agreement. */
  lemma ReturnedUnitBreaksAgreement(uuid: nat -> Id)
    requires uuid(2) == "m2"
    ensures UnitsSound(ONE_VARIANT, BEFORE_REPAIR)
    ensures var r := SentToRepair(BEFORE_REPAIR, "b", uuid);
      r.Ok? && !Agrees(ONE_VARIANT, r.value.stock.movements, r.value.units)
  {
    hide Fold, Count, Agrees, TransfersOk, LedgerOk, AgreesAt;
    BeforeRepairIsSound();
    assert Find(BEFORE_REPAIR.units, "b") == Some(1);
    var m := RepairOutOf(RETURNED, "l", "m2");
    BeforeRepairLedger();
    TwoMovements(Bucket("v", "l", OnHand));
    CoveredPosts(BEFORE_REPAIR.(units := BEFORE_REPAIR.units[1 := MovedUnit(RETURNED, InRepair, "l")]), m);
    RepairKeepsAgreementIff(ONE_VARIANT, BEFORE_REPAIR, "b", uuid);
  }
}
