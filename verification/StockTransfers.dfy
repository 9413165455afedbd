/** Transfers between sites: dispatch and receipt keep units, buckets and open transfers in agreement. */
module StockTransfers {
  import opened Common
  import opened Ledger
  import opened Serialized
  import opened StockModel
  import opened StockUnits

  // ---------------------------------------------------------------- the header row

  lemma {:induction false} OpenQtyFrame(ms: seq<Movement>, before: map<Id, Transfer>, after: map<Id, Transfer>, v: Id, l: Id)
    requires forall i :: 0 <= i < |ms| ==> Open(after, ms[i]) == Open(before, ms[i])
    ensures OpenQty(ms, after, v, l) == OpenQty(ms, before, v, l)
  {
    if ms != [] {
      OpenQtyFrame(ms[..|ms| - 1], before, after, v, l);
    }
  }

  lemma {:induction false} LegCountFrame(ms: seq<Movement>, before: map<Id, Transfer>, after: map<Id, Transfer>, u: Id)
    requires forall i :: 0 <= i < |ms| ==> Open(after, ms[i]) == Open(before, ms[i])
    ensures LegCount(ms, after, u) == LegCount(ms, before, u)
  {
    if ms != [] {
      LegCountFrame(ms[..|ms| - 1], before, after, u);
    }
  }

  /** A new transfer carries nothing yet. */
  lemma HeaderKeeps(shop: Shop, t: Tables, transfer: Id, head: Transfer)
    requires UnitsSound(shop, t) && transfer !in t.transfers
    ensures UnitsSound(shop, t.(transfers := t.transfers[transfer := head]))
  {
    hide LedgerOk, Agrees, HeadsFor, Fold, OpenQty, LegCount, OnWay;
    var ms, after := t.stock.movements, t.transfers[transfer := head];
    forall i | 0 <= i < |ms|
      ensures LegOk(shop, ms[i], t.units, after) && Open(after, ms[i]) == Open(t.transfers, ms[i])
    {
      assert LegOk(shop, ms[i], t.units, t.transfers);
    }
    forall v, l ensures Fold(ms, Bucket(v, l, InTransit)) == OpenQty(ms, after, v, l) {
      OpenQtyFrame(ms, t.transfers, after, v, l);
    }
    forall u ensures LegCount(ms, after, u) == if OnWay(t.units, u) then 1 else 0 {
      LegCountFrame(ms, t.transfers, after, u);
    }
  }

  // ---------------------------------------------------------------- dispatching

  lemma DispatchTransit(ms: seq<Movement>, m: Movement, transfers: map<Id, Transfer>)
    requires Open(transfers, m) && Transit(ms, transfers)
    requires m.to.Some? && m.to.value.state == InTransit && (m.from.Some? ==> m.from.value.state != InTransit)
    ensures Transit(ms + [m], transfers)
  {
    hide Fold, OpenQty;
    var ms' := ms + [m];
    forall v, l ensures Fold(ms', Bucket(v, l, InTransit)) == OpenQty(ms', transfers, v, l) {
      FoldOne(ms, m, Bucket(v, l, InTransit));
      OpenQtyPush(ms, m, transfers, v, l);
    }
  }

  /** Nobody else was carrying the unit: it was in stock. */
  lemma {:induction false} DepartingLegsOk(shop: Shop, ms: seq<Movement>, m: Movement, units: seq<StockUnit>, transfers: map<Id, Transfer>,
                                           i: nat, to: Id)
    requires LegsOk(shop, ms, units, transfers) && Carried(ms, units, transfers)
    requires i < |units| && Find(units, units[i].id) == Some(i) && units[i].state != OnTheWay
    requires m.unit == Some(units[i].id) && LegOk(shop, m, units[i := MovedUnit(units[i], OnTheWay, to)], transfers)
    ensures LegsOk(shop, ms + [m], units[i := MovedUnit(units[i], OnTheWay, to)], transfers)
  {
    hide LegCount, Find;
    var u := MovedUnit(units[i], OnTheWay, to);
    var after, ms' := units[i := u], ms + [m];
    forall j | 0 <= j < |ms'| ensures LegOk(shop, ms'[j], after, transfers) {
      if j < |ms| {
        assert LegOk(shop, ms[j], units, transfers);
        if ms[j].unit.Some? && Open(transfers, ms[j]) {
          LegIsCounted(ms, j, transfers, ms[j].unit.value);
          FindUpdate(units, i, u, ms[j].unit.value);
          assert OnWay(units, ms[j].unit.value);
        }
      }
    }
  }

  lemma {:induction false} DepartingCarried(ms: seq<Movement>, m: Movement, units: seq<StockUnit>, transfers: map<Id, Transfer>, i: nat, to: Id)
    requires Carried(ms, units, transfers) && Open(transfers, m)
    requires i < |units| && Find(units, units[i].id) == Some(i) && units[i].state != OnTheWay
    requires m.unit == Some(units[i].id)
    ensures Carried(ms + [m], units[i := MovedUnit(units[i], OnTheWay, to)], transfers)
  {
    hide LegCount, Find;
    var u := MovedUnit(units[i], OnTheWay, to);
    var after, ms' := units[i := u], ms + [m];
    forall w ensures LegCount(ms', transfers, w) == if OnWay(after, w) then 1 else 0 {
      LegCountPush(ms, m, transfers, w);
      FindUpdate(units, i, u, w);
      if w != u.id && Find(units, w).Some? {
        assert Find(units, w).value != i;
      }
    }
  }

  lemma DispatchUnitKeeps(shop: Shop, t: Tables, transfer: Id, head: Transfer, variant: Id, unit: Id, uuid: nat -> Id)
    requires UnitsSound(shop, t) && shop.Serialized(variant)
    requires transfer in t.transfers && t.transfers[transfer] == head && !head.received
    requires DispatchUnit(t, transfer, head, variant, unit, uuid).Ok?
    ensures UnitsSound(shop, DispatchUnit(t, transfer, head, variant, unit, uuid).value)
    ensures DispatchUnit(t, transfer, head, variant, unit, uuid).value.transfers == t.transfers
  {
    hide LedgerOk, ShapeError, PostTo, Find, Agrees, Settle, LegsOk, Carried, Transit;
    var i := Find(t.units, unit).value;
    var m := OutOf(transfer, head, variant, Some(unit), WHOLE, NextId(t, uuid));
    var u := MovedUnit(t.units[i], OnTheWay, head.to);
    FindIsStable(t.units, unit);
    SettleEffect(t.(units := t.units[i := u]), m);
    UnitMoveAgrees(shop, t.stock.movements, t.units, i, OnTheWay, head.to, m);
    FindUpdate(t.units, i, u, unit);
    DepartingLegsOk(shop, t.stock.movements, m, t.units, t.transfers, i, head.to);
    DepartingCarried(t.stock.movements, m, t.units, t.transfers, i, head.to);
    DispatchTransit(t.stock.movements, m, t.transfers);
  }

  lemma {:induction false} DispatchUnitsKeep(shop: Shop, t: Tables, transfer: Id, head: Transfer, variant: Id,
                                             units: seq<Id>, uuid: nat -> Id)
    requires UnitsSound(shop, t) && shop.Serialized(variant)
    requires transfer in t.transfers && t.transfers[transfer] == head && !head.received
    requires DispatchUnits(t, transfer, head, variant, units, uuid).Ok?
    ensures UnitsSound(shop, DispatchUnits(t, transfer, head, variant, units, uuid).value)
    ensures DispatchUnits(t, transfer, head, variant, units, uuid).value.transfers == t.transfers
  {
    hide UnitsSound, DispatchUnit;
    if units != [] {
      DispatchUnitsKeep(shop, t, transfer, head, variant, units[..|units| - 1], uuid);
      var done := DispatchUnits(t, transfer, head, variant, units[..|units| - 1], uuid).value;
      DispatchUnitKeeps(shop, done, transfer, head, variant, units[|units| - 1], uuid);
    }
  }

  lemma DispatchBulkKeeps(shop: Shop, t: Tables, transfer: Id, head: Transfer, variant: Id, qty: int, uuid: nat -> Id)
    requires UnitsSound(shop, t) && !shop.Serialized(variant)
    requires transfer in t.transfers && t.transfers[transfer] == head && !head.received
    requires Settle(t, OutOf(transfer, head, variant, None, qty, NextId(t, uuid))).Ok?
    ensures UnitsSound(shop, Settle(t, OutOf(transfer, head, variant, None, qty, NextId(t, uuid))).value)
    ensures Settle(t, OutOf(transfer, head, variant, None, qty, NextId(t, uuid))).value.transfers == t.transfers
  {
    hide LedgerOk, ShapeError, PostTo, Agrees, HeadsFor, Settle, Transit, LegCount, OnWay;
    var m := OutOf(transfer, head, variant, None, qty, NextId(t, uuid));
    var ms' := t.stock.movements + [m];
    SettleEffect(t, m);
    PlainMoveAgrees(shop, t.stock.movements, t.units, m);
    DispatchTransit(t.stock.movements, m, t.transfers);
    forall w ensures LegCount(ms', t.transfers, w) == if OnWay(t.units, w) then 1 else 0 {
      LegCountPush(t.stock.movements, m, t.transfers, w);
    }
  }

  lemma DispatchLineKeeps(shop: Shop, t: Tables, transfer: Id, head: Transfer, line: TransferLine, uuid: nat -> Id)
    requires UnitsSound(shop, t)
    requires transfer in t.transfers && t.transfers[transfer] == head && !head.received
    requires DispatchLine(shop, t, transfer, head, line, uuid).Ok?
    ensures UnitsSound(shop, DispatchLine(shop, t, transfer, head, line, uuid).value)
    ensures DispatchLine(shop, t, transfer, head, line, uuid).value.transfers == t.transfers
  {
    hide UnitsSound, DispatchUnits, Settle;
    if shop.Serialized(line.variant) {
      DispatchUnitsKeep(shop, t, transfer, head, line.variant, line.units, uuid);
    } else {
      DispatchBulkKeeps(shop, t, transfer, head, line.variant, line.qty, uuid);
    }
  }

  lemma {:induction false} DispatchLinesKeep(shop: Shop, t: Tables, transfer: Id, head: Transfer,
                                             lines: seq<TransferLine>, uuid: nat -> Id)
    requires UnitsSound(shop, t)
    requires transfer in t.transfers && t.transfers[transfer] == head && !head.received
    requires DispatchLines(shop, t, transfer, head, lines, uuid).Ok?
    ensures UnitsSound(shop, DispatchLines(shop, t, transfer, head, lines, uuid).value)
    ensures DispatchLines(shop, t, transfer, head, lines, uuid).value.transfers == t.transfers
  {
    hide UnitsSound, DispatchLine;
    if lines != [] {
      DispatchLinesKeep(shop, t, transfer, head, lines[..|lines| - 1], uuid);
      var done := DispatchLines(shop, t, transfer, head, lines[..|lines| - 1], uuid).value;
      DispatchLineKeeps(shop, done, transfer, head, lines[|lines| - 1], uuid);
    }
  }

  /** A dispatch keeps every unit, bucket and transfer invariant. */
  lemma DispatchKeeps(shop: Shop, t: Tables, transfer: Id, from: Id, to: Id, lines: seq<TransferLine>, uuid: nat -> Id)
    requires UnitsSound(shop, t) && Dispatched(shop, t, transfer, from, to, lines, uuid).Ok?
    ensures UnitsSound(shop, Dispatched(shop, t, transfer, from, to, lines, uuid).value)
  {
    hide UnitsSound, DispatchLines;
    var head := Transfer(from, to, false);
    HeaderKeeps(shop, t, transfer, head);
    DispatchLinesKeep(shop, t.(transfers := t.transfers[transfer := head]), transfer, head, lines, uuid);
  }

  // ---------------------------------------------------------------- the legs of one transfer

  function Named(legs: seq<Movement>, unit: Id): nat {
    if legs == [] then 0
    else
      var front := Named(legs[..|legs| - 1], unit);
      if legs[|legs| - 1].unit == Some(unit) then front + 1 else front
  }

  function OfVariant(legs: seq<Movement>, variant: Id): nat {
    if legs == [] then 0
    else
      var front := OfVariant(legs[..|legs| - 1], variant);
      if legs[|legs| - 1].variant == variant then front + 1 else front
  }

  function Close(transfers: map<Id, Transfer>, transfer: Id): map<Id, Transfer>
    requires transfer in transfers
  {
    transfers[transfer := transfers[transfer].(received := true)]
  }

  /** Closing a transfer takes exactly its own legs off the road. */
  lemma {:induction false} ClosingLegs(ms: seq<Movement>, transfers: map<Id, Transfer>, transfer: Id, unit: Id)
    requires transfer in transfers && !transfers[transfer].received
    ensures LegCount(ms, transfers, unit) == LegCount(ms, Close(transfers, transfer), unit) + Named(UnitLegs(ms, transfer), unit)
  {
    if ms != [] {
      var legs := UnitLegs(ms[..|ms| - 1], transfer);
      ClosingLegs(ms[..|ms| - 1], transfers, transfer, unit);
      assert (legs + [ms[|ms| - 1]])[..|legs|] == legs;
    }
  }

  /** What the transfer put on the road: whole units it named and quantities it did not. */
  function Sent(ms: seq<Movement>, transfer: Id, variant: Id): int {
    WHOLE * OfVariant(UnitLegs(ms, transfer), variant) + BulkSum(ms, transfer, variant)
  }

  lemma SentPush(ms: seq<Movement>, m: Movement, transfer: Id, variant: Id)
    requires LegOf(m, transfer) && m.unit.Some? ==> m.qty == WHOLE
    ensures Sent(ms + [m], transfer, variant) ==
      Sent(ms, transfer, variant) + (if LegOf(m, transfer) && m.variant == variant then m.qty else 0)
  {
    var ms' := ms + [m];
    assert ms'[..|ms'| - 1] == ms;
    var legs := UnitLegs(ms, transfer);
    assert (legs + [m])[..|legs|] == legs;
  }

  predicate LegsShaped(shop: Shop, ms: seq<Movement>, transfers: map<Id, Transfer>) {
    forall i :: 0 <= i < |ms| ==> LegShaped(shop, ms[i], transfers)
  }

  /** The part of `LegOk` that does not look at units. */
  predicate LegShaped(shop: Shop, m: Movement, transfers: map<Id, Transfer>) {
    m.kind == TransferOut ==>
      && m.reference.kind == "transfer" && m.reference.id in transfers
      && m.to == Some(BucketRef(transfers[m.reference.id].to, InTransit))
      && (m.unit.Some? <==> shop.Serialized(m.variant))
      && (m.unit.Some? ==> m.qty == WHOLE)
  }

  lemma LegsAreShaped(shop: Shop, ms: seq<Movement>, units: seq<StockUnit>, transfers: map<Id, Transfer>)
    requires LegsOk(shop, ms, units, transfers)
    ensures LegsShaped(shop, ms, transfers)
  {
    forall i | 0 <= i < |ms| ensures LegShaped(shop, ms[i], transfers) {
      assert LegOk(shop, ms[i], units, transfers);
    }
  }

  lemma {:induction false} ClosingQty(shop: Shop, ms: seq<Movement>, transfers: map<Id, Transfer>, transfer: Id, v: Id, l: Id)
    requires transfer in transfers && !transfers[transfer].received && LegsShaped(shop, ms, transfers)
    ensures OpenQty(ms, transfers, v, l) == OpenQty(ms, Close(transfers, transfer), v, l)
      + (if l == transfers[transfer].to then Sent(ms, transfer, v) else 0)
  {
    hide Sent;
    if ms == [] {
      assert Sent(ms, transfer, v) == 0 by { SentNothing(transfer, v); }
    } else {
      var front, m := ms[..|ms| - 1], ms[|ms| - 1];
      assert LegsShaped(shop, front, transfers);
      assert LegShaped(shop, m, transfers);
      ClosingQty(shop, front, transfers, transfer, v, l);
      assert ms == front + [m];
      SentPush(front, m, transfer, v);
    }
  }

  lemma SentNothing(transfer: Id, v: Id)
    ensures Sent([], transfer, v) == 0
  {
  }

  lemma {:induction false} OpenQtyNonNegative(ms: seq<Movement>, transfers: map<Id, Transfer>, v: Id, l: Id)
    requires WellShaped(ms)
    ensures OpenQty(ms, transfers, v, l) >= 0
  {
    if ms != [] {
      OpenQtyNonNegative(ms[..|ms| - 1], transfers, v, l);
    }
  }

  /** Sums over the legs are positive exactly for the variants listed, each listed once. */
  lemma {:induction false} BulkListed(ms: seq<Movement>, transfer: Id, variant: Id)
    requires WellShaped(ms)
    ensures variant in BulkVariants(ms, transfer) ==> BulkSum(ms, transfer, variant) > 0
    ensures variant !in BulkVariants(ms, transfer) ==> BulkSum(ms, transfer, variant) == 0
  {
    hide ShapeError;
    if ms != [] {
      BulkListed(ms[..|ms| - 1], transfer, variant);
    }
  }

  lemma {:induction false} BulkDistinct(ms: seq<Movement>, transfer: Id)
    ensures NoDuplicates(BulkVariants(ms, transfer))
  {
    if ms != [] {
      BulkDistinct(ms[..|ms| - 1], transfer);
    }
  }

  lemma {:induction false} BulkIsBulk(shop: Shop, ms: seq<Movement>, transfers: map<Id, Transfer>, transfer: Id, variant: Id)
    requires LegsShaped(shop, ms, transfers) && variant in BulkVariants(ms, transfer)
    ensures !shop.Serialized(variant)
  {
    var front, m := ms[..|ms| - 1], ms[|ms| - 1];
    assert LegsShaped(shop, front, transfers) && LegShaped(shop, m, transfers);
    if variant in BulkVariants(front, transfer) {
      BulkIsBulk(shop, front, transfers, transfer, variant);
    }
  }

  // ---------------------------------------------------------------- receiving, leg by leg

  /** What has arrived so far: the landed units of the variant and its landed quantity. */
  function Arrived(sent: seq<Movement>, transfer: Id, done: seq<Movement>, variants: seq<Id>, v: Id): int {
    WHOLE * OfVariant(done, v) + (if v in variants then BulkSum(sent, transfer, v) else 0)
  }

  /** Open legs whose unit has not landed yet still head for their destination. */
  ghost predicate LandingLegs(t: Tables, done: seq<Movement>) {
    forall i :: 0 <= i < |t.stock.movements| ==> LandingLeg(t, t.stock.movements[i], done)
  }

  predicate LandingLeg(t: Tables, m: Movement, done: seq<Movement>) {
    Open(t.transfers, m) && m.unit.Some? && Named(done, m.unit.value) == 0 ==>
      HeadsFor(t.units, m.unit.value, m.variant, t.transfers[m.reference.id].to)
  }

  ghost predicate LandingCarried(t: Tables, done: seq<Movement>) {
    forall u :: LandingUnit(t, done, u)
  }

  /** The unit is in one open transfer at most, and is under way until its leg has landed. */
  predicate LandingUnit(t: Tables, done: seq<Movement>, u: Id) {
    LegCount(t.stock.movements, t.transfers, u) <= 1
    && LegCount(t.stock.movements, t.transfers, u) == Named(done, u) + (if OnWay(t.units, u) then 1 else 0)
  }

  ghost predicate LandingTransit(t: Tables, sent: seq<Movement>, transfer: Id, done: seq<Movement>, variants: seq<Id>)
    requires transfer in t.transfers
  {
    forall v, l :: Fold(t.stock.movements, Bucket(v, l, InTransit)) == OpenQty(t.stock.movements, t.transfers, v, l)
      - (if l == t.transfers[transfer].to then Arrived(sent, transfer, done, variants, v) else 0)
  }

  /** The ledger rows a transfer is received from do not change while it is received. */
  ghost predicate SameLegs(ms: seq<Movement>, sent: seq<Movement>, transfer: Id) {
    UnitLegs(ms, transfer) == UnitLegs(sent, transfer) && BulkVariants(ms, transfer) == BulkVariants(sent, transfer)
    && forall v :: BulkSum(ms, transfer, v) == BulkSum(sent, transfer, v)
  }

  /** A receipt in progress: the legs `done` and the quantities of `variants` have landed. */
  ghost predicate Landing(shop: Shop, t: Tables, sent: seq<Movement>, transfer: Id, done: seq<Movement>, variants: seq<Id>) {
    && transfer in t.transfers && !t.transfers[transfer].received
    && LedgerOk(t.stock) && Agrees(shop, t.stock.movements, t.units)
    && LegsShaped(shop, t.stock.movements, t.transfers)
    && LandingLegs(t, done) && LandingCarried(t, done) && LandingTransit(t, sent, transfer, done, variants)
    && SameLegs(t.stock.movements, sent, transfer)
  }

  lemma LandingStarts(shop: Shop, t: Tables, transfer: Id)
    requires UnitsSound(shop, t) && transfer in t.transfers && !t.transfers[transfer].received
    ensures Landing(shop, t, t.stock.movements, transfer, [], [])
  {
    hide LedgerOk, Agrees, HeadsFor, Fold, OpenQty, LegCount, OnWay, UnitLegs, BulkVariants, BulkSum;
    LegsAreShaped(shop, t.stock.movements, t.units, t.transfers);
    forall i | 0 <= i < |t.stock.movements| ensures LandingLeg(t, t.stock.movements[i], []) {
      assert LegOk(shop, t.stock.movements[i], t.units, t.transfers);
    }
    forall u ensures LandingUnit(t, [], u) {
      assert Named([], u) == 0;
    }
    forall v, l ensures Fold(t.stock.movements, Bucket(v, l, InTransit)) == OpenQty(t.stock.movements, t.transfers, v, l)
      - (if l == t.transfers[transfer].to then Arrived(t.stock.movements, transfer, [], [], v) else 0)
    {
      assert OfVariant([], v) == 0;
    }
  }

  lemma SameLegsPush(ms: seq<Movement>, m: Movement, sent: seq<Movement>, transfer: Id)
    requires SameLegs(ms, sent, transfer) && m.kind != TransferOut
    ensures SameLegs(ms + [m], sent, transfer)
  {
    assert (ms + [m])[..|ms|] == ms;
  }

  lemma LegsShapedPush(shop: Shop, ms: seq<Movement>, m: Movement, transfers: map<Id, Transfer>)
    requires LegsShaped(shop, ms, transfers) && m.kind != TransferOut
    ensures LegsShaped(shop, ms + [m], transfers)
  {
  }

  function Of(m: Movement, variant: Id): int {
    if m.variant == variant then m.qty else 0
  }

  /** The transit bucket after a landing movement. */
  lemma LandingTransitPush(t: Tables, t': Tables, sent: seq<Movement>, transfer: Id, m: Movement,
                           done: seq<Movement>, variants: seq<Id>, done': seq<Movement>, variants': seq<Id>)
    requires transfer in t.transfers && t'.transfers == t.transfers
    requires LandingTransit(t, sent, transfer, done, variants)
    requires t'.stock.movements == t.stock.movements + [m]
    requires m.kind == TransferIn && m.from == Some(BucketRef(t.transfers[transfer].to, InTransit))
    requires m.to.Some? && m.to.value.state == OnHand
    requires forall v :: Arrived(sent, transfer, done', variants', v) == Arrived(sent, transfer, done, variants, v) + Of(m, v)
    ensures LandingTransit(t', sent, transfer, done', variants')
  {
    hide Fold, OpenQty, Arrived;
    var ms := t.stock.movements;
    forall v, l ensures Fold(t'.stock.movements, Bucket(v, l, InTransit)) == OpenQty(t'.stock.movements, t.transfers, v, l)
      - (if l == t.transfers[transfer].to then Arrived(sent, transfer, done', variants', v) else 0)
    {
      FoldOne(ms, m, Bucket(v, l, InTransit));
      OpenQtyPush(ms, m, t.transfers, v, l);
    }
  }

  lemma {:induction false} NamedPush(done: seq<Movement>, leg: Movement, u: Id)
    ensures Named(done + [leg], u) == Named(done, u) + (if leg.unit == Some(u) then 1 else 0)
    ensures OfVariant(done + [leg], u) == OfVariant(done, u) + (if leg.variant == u then 1 else 0)
  {
    assert (done + [leg])[..|done|] == done;
  }

  lemma ArrivedUnit(sent: seq<Movement>, transfer: Id, done: seq<Movement>, variants: seq<Id>, leg: Movement, v: Id)
    ensures Arrived(sent, transfer, done + [leg], variants, v)
      == Arrived(sent, transfer, done, variants, v) + (if v == leg.variant then WHOLE else 0)
  {
    NamedPush(done, leg, v);
  }

  lemma {:induction false} LandedIs(t: Tables, unit: Id, variant: Id, to: Id)
    requires HeadsFor(t.units, unit, variant, to)
    ensures var i := Find(t.units, unit).value;
      && LandedUnits(t.units, unit, to) == t.units[i := MovedUnit(t.units[i], InStock, to)]
      && Find(t.units, t.units[i].id) == Some(i) && t.units[i].id == unit
      && Follows(Movement("", TransferIn, variant, Some(unit), WHOLE, Some(BucketRef(to, InTransit)),
                          Some(BucketRef(to, OnHand)), Reference("", ""), None), t.units[i], InStock, to)
  {
  }

  /** The landed unit is no longer under way; every other unit is as it was. */
  lemma LandedLegs(t: Tables, t': Tables, done: seq<Movement>, leg: Movement, i: nat, to: Id, m: Movement)
    requires LandingLegs(t, done) && i < |t.units| && Find(t.units, t.units[i].id) == Some(i)
    requires leg.unit == Some(t.units[i].id) && m.kind != TransferOut
    requires t'.units == t.units[i := MovedUnit(t.units[i], InStock, to)] && t'.transfers == t.transfers
    requires t'.stock.movements == t.stock.movements + [m]
    ensures LandingLegs(t', done + [leg])
  {
    hide Find, Named;
    var ms := t.stock.movements;
    forall j | 0 <= j < |t'.stock.movements| ensures LandingLeg(t', t'.stock.movements[j], done + [leg]) {
      if j < |ms| {
        assert LandingLeg(t, ms[j], done);
        if Open(t.transfers, ms[j]) && ms[j].unit.Some? {
          var w := ms[j].unit.value;
          NamedPush(done, leg, w);
          FindUpdate(t.units, i, MovedUnit(t.units[i], InStock, to), w);
        }
      }
    }
  }

  lemma LandedCarried(t: Tables, t': Tables, done: seq<Movement>, leg: Movement, i: nat, to: Id, m: Movement)
    requires LandingCarried(t, done) && i < |t.units| && Find(t.units, t.units[i].id) == Some(i)
    requires t.units[i].state == OnTheWay && leg.unit == Some(t.units[i].id) && m.kind != TransferOut
    requires t'.units == t.units[i := MovedUnit(t.units[i], InStock, to)] && t'.transfers == t.transfers
    requires t'.stock.movements == t.stock.movements + [m]
    ensures LandingCarried(t', done + [leg])
  {
    hide Find, Named, LegCount;
    forall w ensures LandingUnit(t', done + [leg], w) {
      assert LandingUnit(t, done, w);
      NamedPush(done, leg, w);
      LegCountPush(t.stock.movements, m, t.transfers, w);
      FindUpdate(t.units, i, MovedUnit(t.units[i], InStock, to), w);
      if w != t.units[i].id && Find(t.units, w).Some? {
        assert Find(t.units, w).value != i;
      }
    }
  }

  lemma LandUnitKeeps(shop: Shop, t: Tables, sent: seq<Movement>, transfer: Id, done: seq<Movement>, leg: Movement, uuid: nat -> Id)
    requires Landing(shop, t, sent, transfer, done, []) && leg.unit.Some?
    requires HeadsFor(t.units, leg.unit.value, leg.variant, t.transfers[transfer].to)
    requires LandUnit(t, transfer, t.transfers[transfer].to, leg, uuid).Ok?
    ensures Landing(shop, LandUnit(t, transfer, t.transfers[transfer].to, leg, uuid).value, sent, transfer, done + [leg], [])
    ensures LandUnit(t, transfer, t.transfers[transfer].to, leg, uuid).value.transfers == t.transfers
  {
    var to := t.transfers[transfer].to;
    var i := Find(t.units, leg.unit.value).value;
    assert t.units[i].state == OnTheWay;
    var m := InOf(transfer, to, leg.variant, leg.unit, WHOLE, NextId(t, uuid));
    var u := MovedUnit(t.units[i], InStock, to);
    LandedIs(t, leg.unit.value, leg.variant, to);
    hide LedgerOk, ShapeError, PostTo, Find, Agrees, Settle, LandingLegs, LandingCarried, LandingTransit, SameLegs,
         LegsShaped, Arrived, HeadsFor, LandedUnits;
    var staged := t.(units := t.units[i := u]);
    SettleEffect(staged, m);
    var t' := Settle(staged, m).value;
    UnitMoveAgrees(shop, t.stock.movements, t.units, i, InStock, to, m);
    LandedLegs(t, t', done, leg, i, to, m);
    LandedCarried(t, t', done, leg, i, to, m);
    SameLegsPush(t.stock.movements, m, sent, transfer);
    LegsShapedPush(shop, t.stock.movements, m, t.transfers);
    forall v ensures Arrived(sent, transfer, done + [leg], [], v) == Arrived(sent, transfer, done, [], v) + Of(m, v) {
      ArrivedUnit(sent, transfer, done, [], leg, v);
    }
    LandingTransitPush(t, t', sent, transfer, m, done, [], done + [leg], []);
  }

  lemma {:induction false} NamedPrefix(legs: seq<Movement>, k: nat, u: Id)
    requires k < |legs| && legs[k].unit == Some(u)
    ensures Named(legs[..k], u) + 1 <= Named(legs, u)
  {
    var front := legs[..|legs| - 1];
    if k < |front| {
      NamedPrefix(front, k, u);
      assert front[..k] == legs[..k];
    }
  }

  /** The next leg to land is still under way. */
  lemma {:induction false} NextLegHeads(shop: Shop, t: Tables, sent: seq<Movement>, transfer: Id, k: nat)
    requires var legs := UnitLegs(sent, transfer);
      k < |legs| && Landing(shop, t, sent, transfer, legs[..k], [])
    ensures var leg := UnitLegs(sent, transfer)[k];
      leg.unit.Some? && HeadsFor(t.units, leg.unit.value, leg.variant, t.transfers[transfer].to)
  {
    hide LedgerOk, Agrees, LandingTransit, HeadsFor, LegCount, Named, UnitLegs, BulkSum;
    var legs := UnitLegs(sent, transfer);
    var leg := legs[k];
    assert leg in UnitLegs(t.stock.movements, transfer);
    var i :| 0 <= i < |t.stock.movements| && t.stock.movements[i] == leg;
    assert LandingUnit(t, legs[..k], leg.unit.value);
    ClosingLegs(t.stock.movements, t.transfers, transfer, leg.unit.value);
    NamedPrefix(legs, k, leg.unit.value);
    assert LandingLeg(t, t.stock.movements[i], legs[..k]);
  }

  lemma {:induction false} LandUnitsKeep(shop: Shop, t: Tables, transfer: Id, k: nat, uuid: nat -> Id)
    requires UnitsSound(shop, t) && transfer in t.transfers && !t.transfers[transfer].received
    requires k <= |UnitLegs(t.stock.movements, transfer)|
    requires LandUnits(t, transfer, t.transfers[transfer].to, UnitLegs(t.stock.movements, transfer)[..k], uuid).Ok?
    ensures var legs := UnitLegs(t.stock.movements, transfer)[..k];
      var r := LandUnits(t, transfer, t.transfers[transfer].to, legs, uuid).value;
      Landing(shop, r, t.stock.movements, transfer, legs, []) && r.transfers == t.transfers
  {
    hide UnitsSound, LandUnit, Landing, UnitLegs;
    var sent, to := t.stock.movements, t.transfers[transfer].to;
    var legs := UnitLegs(sent, transfer);
    if k == 0 {
      LandingStarts(shop, t, transfer);
    } else {
      assert legs[..k][..k - 1] == legs[..k - 1];
      LandUnitsKeep(shop, t, transfer, k - 1, uuid);
      var done := LandUnits(t, transfer, to, legs[..k - 1], uuid).value;
      NextLegHeads(shop, done, sent, transfer, k - 1);
      assert done.transfers[transfer].to == to;
      LandUnitKeeps(shop, done, sent, transfer, legs[..k - 1], legs[k - 1], uuid);
      assert legs[..k - 1] + [legs[k - 1]] == legs[..k];
    }
  }

  // ---------------------------------------------------------------- receiving quantities

  lemma {:induction false} ArrivedBulk(sent: seq<Movement>, transfer: Id, done: seq<Movement>, variants: seq<Id>, variant: Id, v: Id)
    requires variant !in variants
    ensures Arrived(sent, transfer, done, variants + [variant], v)
      == Arrived(sent, transfer, done, variants, v) + (if v == variant then BulkSum(sent, transfer, variant) else 0)
  {
  }

  lemma {:induction false} LandOneBulkKeeps(shop: Shop, t: Tables, sent: seq<Movement>, transfer: Id, done: seq<Movement>,
                                            variants: seq<Id>, variant: Id, id: Id)
    requires Landing(shop, t, sent, transfer, done, variants)
    requires !shop.Serialized(variant) && variant !in variants
    requires Settle(t, InOf(transfer, t.transfers[transfer].to, variant, None, BulkSum(sent, transfer, variant), id)).Ok?
    ensures var m := InOf(transfer, t.transfers[transfer].to, variant, None, BulkSum(sent, transfer, variant), id);
      && Landing(shop, Settle(t, m).value, sent, transfer, done, variants + [variant])
      && Settle(t, m).value.transfers == t.transfers
  {
    var m := InOf(transfer, t.transfers[transfer].to, variant, None, BulkSum(sent, transfer, variant), id);
    hide LedgerOk, ShapeError, PostTo, Agrees, Settle, LandingTransit, SameLegs, LegsShaped, Arrived, HeadsFor,
         LegCount, Named, OnWay, BulkSum;
    SettleEffect(t, m);
    var t' := Settle(t, m).value;
    var ms' := t'.stock.movements;
    PlainMoveAgrees(shop, t.stock.movements, t.units, m);
    SameLegsPush(t.stock.movements, m, sent, transfer);
    LegsShapedPush(shop, t.stock.movements, m, t.transfers);
    forall i | 0 <= i < |ms'| ensures LandingLeg(t', ms'[i], done) {
      assert i < |t.stock.movements| ==> LandingLeg(t, t.stock.movements[i], done);
    }
    forall u ensures LandingUnit(t', done, u) {
      assert LandingUnit(t, done, u);
      LegCountPush(t.stock.movements, m, t.transfers, u);
    }
    var vs' := variants + [variant];
    forall v ensures Arrived(sent, transfer, done, vs', v) == Arrived(sent, transfer, done, variants, v) + Of(m, v) {
      ArrivedBulk(sent, transfer, done, variants, variant, v);
    }
    LandingTransitPush(t, t', sent, transfer, m, done, variants, done, variants + [variant]);
  }

  /** The `k`-th listed variant is a bulk variant not listed before. */
  lemma {:induction false} NextBulk(shop: Shop, t: Tables, sent: seq<Movement>, transfer: Id, done: seq<Movement>, k: nat)
    requires k < |BulkVariants(sent, transfer)|
    requires Landing(shop, t, sent, transfer, done, BulkVariants(sent, transfer)[..k])
    ensures var v := BulkVariants(sent, transfer)[k];
      !shop.Serialized(v) && v !in BulkVariants(sent, transfer)[..k]
  {
    hide LedgerOk, Agrees, LandingTransit, LandingLegs, LandingCarried, BulkVariants, UnitLegs, BulkSum;
    BulkDistinct(sent, transfer);
    BulkIsBulk(shop, t.stock.movements, t.transfers, transfer, BulkVariants(sent, transfer)[k]);
  }

  lemma {:induction false} LandBulkKeeps(shop: Shop, t: Tables, sent: seq<Movement>, transfer: Id, done: seq<Movement>,
                                         k: nat, uuid: nat -> Id)
    requires Landing(shop, t, sent, transfer, done, []) && k <= |BulkVariants(sent, transfer)|
    requires LandBulk(t, sent, transfer, t.transfers[transfer].to, BulkVariants(sent, transfer)[..k], uuid).Ok?
    ensures var vs := BulkVariants(sent, transfer)[..k];
      var r := LandBulk(t, sent, transfer, t.transfers[transfer].to, vs, uuid).value;
      Landing(shop, r, sent, transfer, done, vs) && r.transfers == t.transfers
  {
    hide Landing, BulkVariants, BulkSum, Settle;
    var vs := BulkVariants(sent, transfer);
    assert transfer in t.transfers by { LandingHeader(shop, t, sent, transfer, done, []); }
    if k > 0 {
      assert vs[..k][..k - 1] == vs[..k - 1];
      LandBulkKeeps(shop, t, sent, transfer, done, k - 1, uuid);
      var before := LandBulk(t, sent, transfer, t.transfers[transfer].to, vs[..k - 1], uuid).value;
      NextBulk(shop, before, sent, transfer, done, k - 1);
      LandOneBulkKeeps(shop, before, sent, transfer, done, vs[..k - 1], vs[k - 1], NextId(before, uuid));
      assert vs[..k - 1] + [vs[k - 1]] == vs[..k];
    }
  }

  lemma LandingHeader(shop: Shop, t: Tables, sent: seq<Movement>, transfer: Id, done: seq<Movement>, variants: seq<Id>)
    requires Landing(shop, t, sent, transfer, done, variants)
    ensures transfer in t.transfers && !t.transfers[transfer].received && LedgerOk(t.stock)
  {
  }

  // ---------------------------------------------------------------- closing the transfer

  lemma {:induction false} ClosedLegsOk(shop: Shop, t: Tables, transfer: Id)
    requires transfer in t.transfers && !t.transfers[transfer].received
    requires LegsShaped(shop, t.stock.movements, t.transfers)
    requires var done := UnitLegs(t.stock.movements, transfer); LandingLegs(t, done) && LandingCarried(t, done)
    ensures LegsOk(shop, t.stock.movements, t.units, Close(t.transfers, transfer))
    ensures Carried(t.stock.movements, t.units, Close(t.transfers, transfer))
  {
    hide HeadsFor, LegCount, Named, UnitLegs, OnWay;
    var ms, after := t.stock.movements, Close(t.transfers, transfer);
    var done := UnitLegs(ms, transfer);
    forall i | 0 <= i < |ms| ensures LegOk(shop, ms[i], t.units, after) {
      assert LegShaped(shop, ms[i], t.transfers);
      assert LandingLeg(t, ms[i], done);
      if Open(after, ms[i]) && ms[i].unit.Some? {
        LegIsCounted(ms, i, after, ms[i].unit.value);
        ClosingLegs(ms, t.transfers, transfer, ms[i].unit.value);
        assert LandingUnit(t, done, ms[i].unit.value);
      }
    }
    forall u ensures LegCount(ms, after, u) == if OnWay(t.units, u) then 1 else 0 {
      assert LandingUnit(t, done, u);
      ClosingLegs(ms, t.transfers, transfer, u);
    }
  }

  lemma {:induction false} ClosedTransit(shop: Shop, t: Tables, sent: seq<Movement>, transfer: Id)
    requires Landing(shop, t, sent, transfer, UnitLegs(sent, transfer), BulkVariants(sent, transfer))
    requires WellShaped(sent)
    ensures Transit(t.stock.movements, Close(t.transfers, transfer))
  {
    hide LedgerOk, Agrees, LandingLegs, LandingCarried, Fold, OpenQty, BulkSum, UnitLegs, BulkVariants, OfVariant, LegsShaped;
    var ms, after := t.stock.movements, Close(t.transfers, transfer);
    forall v, l ensures Fold(ms, Bucket(v, l, InTransit)) == OpenQty(ms, after, v, l) {
      ClosingQty(shop, ms, t.transfers, transfer, v, l);
      BulkListed(sent, transfer, v);
      assert BulkSum(ms, transfer, v) == BulkSum(sent, transfer, v);
    }
  }

  /** Receiving a transfer keeps every unit, bucket and transfer invariant. */
  lemma TransferReceivedKeeps(shop: Shop, t: Tables, transfer: Id, uuid: nat -> Id)
    requires UnitsSound(shop, t) && TransferReceived(t, transfer, uuid).Ok?
    ensures UnitsSound(shop, TransferReceived(t, transfer, uuid).value)
  {
    hide LandUnits, LandBulk, UnitLegs, BulkVariants, Agrees, TransfersOk, Landing;
    var sent, to := t.stock.movements, t.transfers[transfer].to;
    var legs, vs := UnitLegs(sent, transfer), BulkVariants(sent, transfer);
    assert legs[..|legs|] == legs && vs[..|vs|] == vs;
    LandUnitsKeep(shop, t, transfer, |legs|, uuid);
    var landed := LandUnits(t, transfer, to, legs, uuid).value;
    LandBulkKeeps(shop, landed, sent, transfer, legs, |vs|, uuid);
    var done := LandBulk(landed, sent, transfer, to, vs, uuid).value;
    LandedIsSound(shop, done, sent, transfer);
  }

  lemma {:induction false} LandedIsSound(shop: Shop, t: Tables, sent: seq<Movement>, transfer: Id)
    requires Landing(shop, t, sent, transfer, UnitLegs(sent, transfer), BulkVariants(sent, transfer))
    requires WellShaped(sent)
    ensures transfer in t.transfers && UnitsSound(shop, Closed(t, transfer))
  {
    hide LedgerOk, Agrees, LegsShaped, LandingLegs, LandingCarried, LandingTransit, UnitLegs, BulkVariants, BulkSum,
         LegsOk, Carried, Transit;
    ClosedLegsOk(shop, t, transfer);
    ClosedTransit(shop, t, sent, transfer);
    assert Closed(t, transfer).transfers == Close(t.transfers, transfer);
  }

  // ---------------------------------------------------------------- an open transfer can always be received

  lemma {:induction false} CountPositive(units: seq<StockUnit>, i: nat, v: Id, l: Id, state: UnitState)
    requires i < |units| && Matches(units[i], v, l, state)
    ensures Count(units, v, l, state) >= 1
  {
    if i < |units| - 1 {
      CountPositive(units[..|units| - 1], i, v, l, state);
    }
  }

  lemma InShape(transfer: Id, to: Id, variant: Id, unit: Option<Id>, qty: int, id: Id)
    requires qty > 0
    ensures ShapeError(InOf(transfer, to, variant, unit, qty, id)).None?
  {
  }

  lemma {:induction false} LegVariantIsSerialized(shop: Shop, ms: seq<Movement>, transfers: map<Id, Transfer>, transfer: Id, leg: Movement)
    requires LegsShaped(shop, ms, transfers) && leg in UnitLegs(ms, transfer)
    ensures shop.Serialized(leg.variant)
  {
    hide UnitLegs;
    var i :| 0 <= i < |ms| && ms[i] == leg;
    assert LegShaped(shop, ms[i], transfers);
  }

  lemma {:induction false} LandUnitPosts(shop: Shop, t: Tables, sent: seq<Movement>, transfer: Id, k: nat, uuid: nat -> Id)
    requires k < |UnitLegs(sent, transfer)| && FreshIds(uuid, t.stock.movements)
    requires Landing(shop, t, sent, transfer, UnitLegs(sent, transfer)[..k], [])
    ensures var leg := UnitLegs(sent, transfer)[k];
      var r := LandUnit(t, transfer, t.transfers[transfer].to, leg, uuid);
      r.Ok? && FreshIds(uuid, r.value.stock.movements)
  {
    var leg, to := UnitLegs(sent, transfer)[k], t.transfers[transfer].to;
    NextLegHeads(shop, t, sent, transfer, k);
    var u := Find(t.units, leg.unit.value).value;
    CountPositive(t.units, u, leg.variant, to, OnTheWay);
    assert leg in UnitLegs(t.stock.movements, transfer);
    LegVariantIsSerialized(shop, t.stock.movements, t.transfers, transfer, leg);
    assert AgreesAt(t.stock.movements, t.units, leg.variant, to);
    var m := InOf(transfer, to, leg.variant, leg.unit, WHOLE, NextId(t, uuid));
    InShape(transfer, to, leg.variant, leg.unit, WHOLE, NextId(t, uuid));
    hide LedgerOk, Agrees, AgreesAt, LandingTransit, LandingLegs, LandingCarried, LegsShaped, UnitLegs, Count, Fold,
         ShapeError, PostTo, Settle, Ids, Find, SameLegs;
    assert Fold(t.stock.movements, Bucket(leg.variant, to, InTransit)) >= WHOLE;
    var staged := t.(units := LandedUnits(t.units, leg.unit.value, to));
    CoveredPosts(staged, m);
    SettleEffect(staged, m);
    FreshAfter(uuid, t.stock.movements, m);
  }

  lemma {:induction false} LandBulkPosts(shop: Shop, t: Tables, sent: seq<Movement>, transfer: Id, k: nat, uuid: nat -> Id)
    requires k < |BulkVariants(sent, transfer)| && FreshIds(uuid, t.stock.movements) && WellShaped(sent)
    requires Landing(shop, t, sent, transfer, UnitLegs(sent, transfer), BulkVariants(sent, transfer)[..k])
    ensures var v := BulkVariants(sent, transfer)[k];
      var r := Settle(t, InOf(transfer, t.transfers[transfer].to, v, None, BulkSum(sent, transfer, v), NextId(t, uuid)));
      r.Ok? && FreshIds(uuid, r.value.stock.movements)
  {
    var v, to := BulkVariants(sent, transfer)[k], t.transfers[transfer].to;
    var m := InOf(transfer, to, v, None, BulkSum(sent, transfer, v), NextId(t, uuid));
    NextBulk(shop, t, sent, transfer, UnitLegs(sent, transfer), k);
    BulkListed(sent, transfer, v);
    InShape(transfer, to, v, None, BulkSum(sent, transfer, v), NextId(t, uuid));
    ClosingQty(shop, t.stock.movements, t.transfers, transfer, v, to);
    OpenQtyNonNegative(t.stock.movements, Close(t.transfers, transfer), v, to);
    hide LedgerOk, Agrees, LandingLegs, LandingCarried, LegsShaped, UnitLegs, BulkVariants, BulkSum, OfVariant, OpenQty, Fold,
         ShapeError, PostTo, Settle, Ids;
    assert Fold(t.stock.movements, Bucket(v, to, InTransit)) >= BulkSum(sent, transfer, v);
    CoveredPosts(t, m);
    SettleEffect(t, m);
    FreshAfter(uuid, t.stock.movements, m);
  }

  lemma {:induction false} LandUnitsSucceeds(shop: Shop, t: Tables, transfer: Id, k: nat, uuid: nat -> Id)
    requires UnitsSound(shop, t) && transfer in t.transfers && !t.transfers[transfer].received
    requires FreshIds(uuid, t.stock.movements) && k <= |UnitLegs(t.stock.movements, transfer)|
    ensures var r := LandUnits(t, transfer, t.transfers[transfer].to, UnitLegs(t.stock.movements, transfer)[..k], uuid);
      r.Ok? && FreshIds(uuid, r.value.stock.movements)
  {
    hide UnitsSound, LandUnit, Landing, UnitLegs, FreshIds;
    var sent, to := t.stock.movements, t.transfers[transfer].to;
    var legs := UnitLegs(sent, transfer);
    if k > 0 {
      assert legs[..k][..k - 1] == legs[..k - 1];
      LandUnitsSucceeds(shop, t, transfer, k - 1, uuid);
      LandUnitsKeep(shop, t, transfer, k - 1, uuid);
      LandUnitPosts(shop, LandUnits(t, transfer, to, legs[..k - 1], uuid).value, sent, transfer, k - 1, uuid);
    }
  }

  lemma {:induction false} LandBulkSucceeds(shop: Shop, t: Tables, sent: seq<Movement>, transfer: Id, k: nat, uuid: nat -> Id)
    requires Landing(shop, t, sent, transfer, UnitLegs(sent, transfer), []) && WellShaped(sent)
    requires FreshIds(uuid, t.stock.movements) && k <= |BulkVariants(sent, transfer)|
    ensures var r := LandBulk(t, sent, transfer, t.transfers[transfer].to, BulkVariants(sent, transfer)[..k], uuid);
      r.Ok? && FreshIds(uuid, r.value.stock.movements)
  {
    LandingHeader(shop, t, sent, transfer, UnitLegs(sent, transfer), []);
    hide Landing, BulkVariants, BulkSum, Settle, FreshIds, WellShaped, UnitLegs;
    var vs := BulkVariants(sent, transfer);
    if k > 0 {
      assert vs[..k][..k - 1] == vs[..k - 1];
      LandBulkSucceeds(shop, t, sent, transfer, k - 1, uuid);
      LandBulkKeeps(shop, t, sent, transfer, UnitLegs(sent, transfer), k - 1, uuid);
      LandBulkPosts(shop, LandBulk(t, sent, transfer, t.transfers[transfer].to, vs[..k - 1], uuid).value,
                    sent, transfer, k - 1, uuid);
    }
  }

  /** Stock dispatched can always be received: the transit buckets cover every leg of an open transfer. */
  lemma OpenTransferCanBeReceived(shop: Shop, t: Tables, transfer: Id, uuid: nat -> Id)
    requires UnitsSound(shop, t) && FreshIds(uuid, t.stock.movements)
    ensures TransferReceived(t, transfer, uuid).Ok? <==> transfer in t.transfers && !t.transfers[transfer].received
  {
    if transfer in t.transfers && !t.transfers[transfer].received {
      var sent := t.stock.movements;
      hide LandUnits, LandBulk, UnitLegs, BulkVariants, Agrees, TransfersOk, Landing, FreshIds;
      var legs, vs := UnitLegs(sent, transfer), BulkVariants(sent, transfer);
      assert legs[..|legs|] == legs && vs[..|vs|] == vs;
      LandUnitsSucceeds(shop, t, transfer, |legs|, uuid);
      LandUnitsKeep(shop, t, transfer, |legs|, uuid);
      var landed := LandUnits(t, transfer, t.transfers[transfer].to, legs, uuid).value;
      LandBulkSucceeds(shop, landed, sent, transfer, |vs|, uuid);
      LandBulkKeeps(shop, landed, sent, transfer, legs, |vs|, uuid);
    }
  }

  // ---------------------------------------------------------------- one transfer per unit

  lemma {:induction false} CountedLeg(ms: seq<Movement>, transfers: map<Id, Transfer>, u: Id) returns (i: nat)
    requires LegCount(ms, transfers, u) >= 1
    ensures i < |ms| && Open(transfers, ms[i]) && ms[i].unit == Some(u)
  {
    var m := ms[|ms| - 1];
    if Open(transfers, m) && m.unit == Some(u) {
      i := |ms| - 1;
    } else {
      i := CountedLeg(ms[..|ms| - 1], transfers, u);
    }
  }

  lemma {:induction false} LegIsNamed(ms: seq<Movement>, i: nat, transfer: Id, u: Id)
    requires i < |ms| && LegOf(ms[i], transfer) && ms[i].unit == Some(u)
    ensures Named(UnitLegs(ms, transfer), u) >= 1
  {
    var legs := UnitLegs(ms[..|ms| - 1], transfer);
    assert (legs + [ms[|ms| - 1]])[..|legs|] == legs;
    if i < |ms| - 1 {
      LegIsNamed(ms[..|ms| - 1], i, transfer, u);
    }
  }

  /** A unit under way is named exactly once by some transfer not yet received. */
  lemma UnderWayInATransfer(shop: Shop, t: Tables, u: Id) returns (transfer: Id)
    requires UnitsSound(shop, t) && OnWay(t.units, u)
    ensures transfer in t.transfers && !t.transfers[transfer].received
    ensures Named(UnitLegs(t.stock.movements, transfer), u) == 1
  {
    hide LegCount, UnitLegs, Named, LedgerOk, Agrees, LegsOk, Transit;
    var ms := t.stock.movements;
    assert LegCount(ms, t.transfers, u) == 1;
    var i := CountedLeg(ms, t.transfers, u);
    transfer := ms[i].reference.id;
    LegIsNamed(ms, i, transfer, u);
    ClosingLegs(ms, t.transfers, transfer, u);
  }

  /** No two transfers not yet received name the same unit. */
  lemma {:induction false} OnlyOneTransfer(shop: Shop, t: Tables, a: Id, b: Id, u: Id)
    requires UnitsSound(shop, t) && a != b
    requires a in t.transfers && !t.transfers[a].received && b in t.transfers && !t.transfers[b].received
    ensures Named(UnitLegs(t.stock.movements, a), u) + Named(UnitLegs(t.stock.movements, b), u) <= 1
  {
    hide LegCount, UnitLegs, Named, LedgerOk, Agrees, LegsOk, Transit;
    ClosingLegs(t.stock.movements, t.transfers, a, u);
    ClosingLegs(t.stock.movements, Close(t.transfers, a), b, u);
    assert LegCount(t.stock.movements, t.transfers, u) <= 1;
  }
}
