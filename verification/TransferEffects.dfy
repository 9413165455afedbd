/** What a dispatch takes and sends, and what its receipt lands: bucket by bucket and unit by unit. */
module TransferEffects {
  import opened Common
  import opened Ledger
  import opened Serialized
  import opened StockEffects
  import opened StockModel
  import opened StockTransfers
  import opened StockUnits

  // ---------------------------------------------------------------- looking a unit up

  lemma {:induction false} FindIff(units: seq<StockUnit>, id: Id)
    ensures Find(units, id).None? <==> forall i :: 0 <= i < |units| ==> units[i].id != id
  {
    if units != [] {
      var front := units[..|units| - 1];
      FindIff(front, id);
      assert forall i :: 0 <= i < |front| ==> front[i] == units[i];
    }
  }

  // ---------------------------------------------------------------- what a dispatch sends

  datatype Named = Named(variant: Id, unit: Id)

  function NamesOf(variant: Id, units: seq<Id>): (named: seq<Named>)
    ensures |named| == |units|
  {
    if units == [] then [] else NamesOf(variant, units[..|units| - 1]) + [Named(variant, units[|units| - 1])]
  }

  function LineNames(shop: Shop, line: TransferLine): seq<Named> {
    if shop.Serialized(line.variant) then NamesOf(line.variant, line.units) else []
  }

  /** Every unit the transfer names, in order. */
  function Names(shop: Shop, lines: seq<TransferLine>): seq<Named> {
    if lines == [] then [] else Names(shop, lines[..|lines| - 1]) + LineNames(shop, lines[|lines| - 1])
  }

  /** How much of a variant the lines send. */
  function Sent(lines: seq<TransferLine>, variant: Id): int {
    if lines == [] then 0
    else
      var last := lines[|lines| - 1];
      Sent(lines[..|lines| - 1], variant) + (if last.variant == variant then last.qty else 0)
  }

  /** Off the shelf at one end, under way at the other. */
  function DispatchChange(from: Id, to: Id, lines: seq<TransferLine>): Bucket -> int {
    (b: Bucket) => (if b.location == to && b.state == InTransit then Sent(lines, b.variant) else 0)
                   - (if b.location == from && b.state == OnHand then Sent(lines, b.variant) else 0)
  }

  /** Unit `k` of the table is one of those named. */
  ghost predicate Hit(units: seq<StockUnit>, named: seq<Named>, k: nat) {
    exists j :: 0 <= j < |named| && Find(units, named[j].unit) == Some(k)
  }

  /** Exactly the named units are under way to the place; every other unit is as it was. */
  ghost predicate OnlyNamedLeft(before: seq<StockUnit>, after: seq<StockUnit>, named: seq<Named>, to: Id) {
    && |after| == |before|
    && (forall k: nat :: k < |before| ==>
          after[k] == if Hit(before, named, k) then before[k].(state := OnTheWay, location := Some(to)) else before[k])
  }

  /** The unit is there, of its variant, in stock at the place it leaves. */
  predicate CanLeave(units: seq<StockUnit>, n: Named, from: Id) {
    Find(units, n.unit).Some?
    && (var u := units[Find(units, n.unit).value]; u.variant == n.variant && u.state == InStock && u.location == Some(from))
  }

  /** Each named unit can leave, and none is named twice. */
  ghost predicate AllCanLeave(units: seq<StockUnit>, named: seq<Named>, from: Id) {
    && (forall j :: 0 <= j < |named| ==> CanLeave(units, named[j], from))
    && forall i, j :: 0 <= i < j < |named| ==> named[i].unit != named[j].unit
  }

  predicate LineFits(shop: Shop, line: TransferLine) {
    && line.variant in shop.tracking
    && (if shop.tracking[line.variant] then line.qty == 1000 * |line.units| else line.qty > 0)
  }

  /** How far a dispatch has come. */
  ghost predicate Progress(t: Tables, done: Tables, named: seq<Named>, from: Id, to: Id) {
    && OnlyStockAndUnits(t, done)
    && OnlyNamedLeft(t.units, done.units, named, to)
    && (forall x :: Find(done.units, x) == Find(t.units, x))
    && AllCanLeave(t.units, named, from)
  }

  lemma NoProgress(t: Tables, from: Id, to: Id)
    ensures Progress(t, t, [], from, to)
  {
  }

  /** Whether one more named unit can leave now is whether it could leave before and has not been named yet. */
  lemma NextCanLeaveIff(t: Tables, done: Tables, named: seq<Named>, n: Named, from: Id, to: Id)
    requires Progress(t, done, named, from, to)
    ensures CanLeave(done.units, n, from) <==> AllCanLeave(t.units, named + [n], from)
  {
    hide Find, OnlyStockAndUnits;
    var all := named + [n];
    if CanLeave(done.units, n, from) {
      var k := Find(done.units, n.unit).value;
      assert !Hit(t.units, named, k);
      forall i, j | 0 <= i < j < |all| ensures all[i].unit != all[j].unit {
        assert j == |named| && all[i].unit == n.unit ==> Hit(t.units, named, k);
      }
    }
    if AllCanLeave(t.units, all, from) {
      assert CanLeave(t.units, all[|named|], from);
      var k := Find(t.units, n.unit).value;
      FoundIs(t.units, n.unit);
      forall j | 0 <= j < |named| ensures Find(t.units, named[j].unit) != Some(k) {
        assert CanLeave(t.units, all[j], from) && all[j].unit != all[|named|].unit;
        FoundIs(t.units, named[j].unit);
      }
    }
  }

  lemma {:induction false} FoundIs(units: seq<StockUnit>, id: Id)
    requires Find(units, id).Some?
    ensures units[Find(units, id).value].id == id
  {
  }

  lemma DispatchUnitSays(t: Tables, start: Tables, transfer: Id, head: Transfer, variant: Id, unit: Id, uuid: nat -> Id,
                         named: seq<Named>)
    requires Progress(start, t, named, head.from, head.to)
    requires DispatchUnit(t, transfer, head, variant, unit, uuid).Ok?
    ensures var after := DispatchUnit(t, transfer, head, variant, unit, uuid).value;
      && CanLeave(t.units, Named(variant, unit), head.from)
      && Progress(start, after, named + [Named(variant, unit)], head.from, head.to)
      && forall b :: LevelIn(after.stock.levels, b) == LevelIn(t.stock.levels, b)
           + (if b == Bucket(variant, head.to, InTransit) then 1000 else 0)
           - (if b == Bucket(variant, head.from, OnHand) then 1000 else 0)
  {
    hide Settle, LevelIn;
    var n := Named(variant, unit);
    var k := Find(t.units, unit).value;
    var u := MovedUnit(t.units[k], OnTheWay, head.to);
    var staged := t.(units := t.units[k := u]);
    SettleSays(staged, OutOf(transfer, head, variant, Some(unit), WHOLE, NextId(t, uuid)));
    NextCanLeaveIff(start, t, named, n, head.from, head.to);
    forall x ensures Find(staged.units, x) == Find(t.units, x) {
      FindUpdate(t.units, k, u, x);
    }
    HitMore(start.units, named, n, k);
    hide Find;
    assert OnlyNamedLeft(start.units, staged.units, named + [n], head.to);
  }

  lemma {:induction false} HitMore(units: seq<StockUnit>, named: seq<Named>, n: Named, k: nat)
    requires Find(units, n.unit) == Some(k)
    ensures forall i: nat :: Hit(units, named + [n], i) <==> Hit(units, named, i) || i == k
  {
    hide Find;
    var all := named + [n];
    forall i: nat ensures Hit(units, all, i) <==> Hit(units, named, i) || i == k {
      if Hit(units, named, i) {
        var j :| 0 <= j < |named| && Find(units, named[j].unit) == Some(i);
        assert all[j] == named[j];
      }
      if i == k {
        assert all[|named|] == n;
      }
    }
  }

  lemma {:induction false} DispatchUnitsSay(t: Tables, start: Tables, transfer: Id, head: Transfer, variant: Id, units: seq<Id>,
                                            uuid: nat -> Id, named: seq<Named>)
    requires Progress(start, t, named, head.from, head.to)
    requires DispatchUnits(t, transfer, head, variant, units, uuid).Ok?
    ensures var after := DispatchUnits(t, transfer, head, variant, units, uuid).value;
      && Progress(start, after, named + NamesOf(variant, units), head.from, head.to)
      && forall b :: LevelIn(after.stock.levels, b) == LevelIn(t.stock.levels, b)
           + (if b == Bucket(variant, head.to, InTransit) then 1000 * |units| else 0)
           - (if b == Bucket(variant, head.from, OnHand) then 1000 * |units| else 0)
  {
    hide DispatchUnit, LevelIn, Progress;
    if units == [] {
      assert named + NamesOf(variant, units) == named;
    } else {
      var front, last := units[..|units| - 1], units[|units| - 1];
      DispatchUnitsSay(t, start, transfer, head, variant, front, uuid, named);
      DispatchUnitSays(DispatchUnits(t, transfer, head, variant, front, uuid).value, start, transfer, head, variant, last, uuid,
                       named + NamesOf(variant, front));
      assert named + NamesOf(variant, front) + [Named(variant, last)] == named + NamesOf(variant, units);
    }
  }

  lemma DispatchLineSays(shop: Shop, t: Tables, start: Tables, transfer: Id, head: Transfer, line: TransferLine, uuid: nat -> Id,
                         named: seq<Named>)
    requires Progress(start, t, named, head.from, head.to)
    requires DispatchLine(shop, t, transfer, head, line, uuid).Ok?
    ensures var after := DispatchLine(shop, t, transfer, head, line, uuid).value;
      && LineFits(shop, line)
      && Progress(start, after, named + LineNames(shop, line), head.from, head.to)
      && forall b :: LevelIn(after.stock.levels, b) == LevelIn(t.stock.levels, b)
           + (if b == Bucket(line.variant, head.to, InTransit) then line.qty else 0)
           - (if b == Bucket(line.variant, head.from, OnHand) then line.qty else 0)
  {
    hide DispatchUnits, LevelIn, Settle, Find, NamesOf, AllCanLeave;
    if shop.Serialized(line.variant) {
      hide Progress;
      DispatchUnitsSay(t, start, transfer, head, line.variant, line.units, uuid, named);
    } else {
      SettleSays(t, OutOf(transfer, head, line.variant, None, line.qty, NextId(t, uuid)));
      assert named + [] == named;
    }
  }

  lemma {:induction false} DispatchLinesSay(shop: Shop, t: Tables, transfer: Id, head: Transfer, lines: seq<TransferLine>, uuid: nat -> Id)
    requires DispatchLines(shop, t, transfer, head, lines, uuid).Ok?
    ensures var after := DispatchLines(shop, t, transfer, head, lines, uuid).value;
      && (forall i :: 0 <= i < |lines| ==> LineFits(shop, lines[i]))
      && Progress(t, after, Names(shop, lines), head.from, head.to)
      && Shifted(t, after, DispatchChange(head.from, head.to, lines))
  {
    hide DispatchLine, LevelIn, Progress, LineFits, LineNames;
    if lines == [] {
      NoProgress(t, head.from, head.to);
    } else {
      var front, last := lines[..|lines| - 1], lines[|lines| - 1];
      DispatchLinesSay(shop, t, transfer, head, front, uuid);
      var done := DispatchLines(shop, t, transfer, head, front, uuid).value;
      DispatchLineSays(shop, done, t, transfer, head, last, uuid, Names(shop, front));
      var after := DispatchLines(shop, t, transfer, head, lines, uuid).value;
      forall i | 0 <= i < |lines| ensures LineFits(shop, lines[i]) {
        assert i < |front| ==> lines[i] == front[i];
      }
      forall b ensures LevelIn(after.stock.levels, b) == LevelIn(t.stock.levels, b) + DispatchChange(head.from, head.to, lines)(b) {
        assert LevelIn(done.stock.levels, b) == LevelIn(t.stock.levels, b) + DispatchChange(head.from, head.to, front)(b);
      }
    }
  }

  /** What a dispatch needs of its lines: units that can leave, and enough of each variant on the shelf. */
  ghost predicate Dispatchable(shop: Shop, t: Tables, from: Id, lines: seq<TransferLine>) {
    && (forall i :: 0 <= i < |lines| ==> LineFits(shop, lines[i]))
    && AllCanLeave(t.units, Names(shop, lines), from)
    && (forall v :: Sent(lines, v) <= LevelIn(t.stock.levels, Bucket(v, from, OnHand)))
  }

  /** All a dispatch does: header, shelf, road and units; nothing else. */
  lemma {:induction false} DispatchedSays(shop: Shop, t: Tables, transfer: Id, from: Id, to: Id, lines: seq<TransferLine>, uuid: nat -> Id)
    requires Dispatched(shop, t, transfer, from, to, lines, uuid).Ok?
    ensures var after := Dispatched(shop, t, transfer, from, to, lines, uuid).value;
      && transfer !in t.transfers && from != to
      && after == t.(stock := after.stock, units := after.units, transfers := t.transfers[transfer := Transfer(from, to, false)])
      && t.stock.movements <= after.stock.movements
      && OnlyNamedLeft(t.units, after.units, Names(shop, lines), to)
      && Shifted(t, after, DispatchChange(from, to, lines))
  {
    hide DispatchLines, LevelIn, LineFits, Names, OnlyNamedLeft, AllCanLeave, Find;
    var head := Transfer(from, to, false);
    DispatchLinesSay(shop, t.(transfers := t.transfers[transfer := head]), transfer, head, lines, uuid);
  }

  // ---------------------------------------------------------------- which dispatches are accepted

  ghost predicate Set(t: Tables, uuid: nat -> Id) {
    LedgerOk(t.stock) && FreshIds(uuid, t.stock.movements)
  }

  lemma OutShape(transfer: Id, head: Transfer, variant: Id, unit: Option<Id>, qty: int, id: Id)
    requires head.from != head.to
    ensures ShapeError(OutOf(transfer, head, variant, unit, qty, id)).None? <==> qty > 0
  {
  }

  /** A dispatch movement posts exactly when its quantity is positive and on the shelf. */
  lemma OutPostsIff(t: Tables, transfer: Id, head: Transfer, variant: Id, unit: Option<Id>, qty: int, uuid: nat -> Id)
    requires Set(t, uuid) && head.from != head.to
    ensures var r := Settle(t, OutOf(transfer, head, variant, unit, qty, NextId(t, uuid)));
      && (r.Ok? <==> 0 < qty <= LevelIn(t.stock.levels, Bucket(variant, head.from, OnHand)))
      && (r.Ok? ==> Set(r.value, uuid))
  {
    hide ShapeError, Fold, Ids, Moved;
    var m := OutOf(transfer, head, variant, unit, qty, NextId(t, uuid));
    OutShape(transfer, head, variant, unit, qty, NextId(t, uuid));
    FreshIsNew(uuid, t.stock.movements);
    assert LevelIn(t.stock.levels, FromBucket(m)) == Fold(t.stock.movements, FromBucket(m));
    if Settle(t, m).Ok? {
      hide Settle;
      SettleEffect(t, m);
      FreshAfter(uuid, t.stock.movements, m);
    }
  }

  lemma DispatchUnitIff(t: Tables, start: Tables, transfer: Id, head: Transfer, variant: Id, unit: Id, uuid: nat -> Id, named: seq<Named>)
    requires Set(t, uuid) && head.from != head.to && Progress(start, t, named, head.from, head.to)
    ensures var r := DispatchUnit(t, transfer, head, variant, unit, uuid);
      && (r.Ok? <==> AllCanLeave(start.units, named + [Named(variant, unit)], head.from)
                     && LevelIn(t.stock.levels, Bucket(variant, head.from, OnHand)) >= 1000)
      && (r.Ok? ==> Set(r.value, uuid))
  {
    hide Settle, LevelIn, AllCanLeave, Progress, LedgerOk, FreshIds, Find;
    NextCanLeaveIff(start, t, named, Named(variant, unit), head.from, head.to);
    if CanLeave(t.units, Named(variant, unit), head.from) {
      var k := Find(t.units, unit).value;
      OutPostsIff(t.(units := t.units[k := MovedUnit(t.units[k], OnTheWay, head.to)]), transfer, head, variant, Some(unit), WHOLE, uuid);
    }
  }

  lemma {:induction false} DispatchUnitsIff(t: Tables, start: Tables, transfer: Id, head: Transfer, variant: Id, units: seq<Id>,
                                            uuid: nat -> Id, named: seq<Named>)
    requires Set(t, uuid) && head.from != head.to && Progress(start, t, named, head.from, head.to)
    requires LevelIn(t.stock.levels, Bucket(variant, head.from, OnHand)) >= 0
    ensures var r := DispatchUnits(t, transfer, head, variant, units, uuid);
      && (r.Ok? <==> AllCanLeave(start.units, named + NamesOf(variant, units), head.from)
                     && LevelIn(t.stock.levels, Bucket(variant, head.from, OnHand)) >= 1000 * |units|)
      && (r.Ok? ==> Set(r.value, uuid))
  {
    hide DispatchUnit, LevelIn, Set;
    if units == [] {
      assert named + NamesOf(variant, units) == named;
    } else {
      hide Progress, AllCanLeave;
      var front, last := units[..|units| - 1], units[|units| - 1];
      DispatchUnitsIff(t, start, transfer, head, variant, front, uuid, named);
      var some := named + NamesOf(variant, front);
      assert named + NamesOf(variant, units) == some + [Named(variant, last)];
      FewerCanLeave(start.units, some, Named(variant, last), head.from);
      var r := DispatchUnits(t, transfer, head, variant, front, uuid);
      if r.Ok? {
        DispatchUnitsSay(t, start, transfer, head, variant, front, uuid, named);
        DispatchUnitIff(r.value, start, transfer, head, variant, last, uuid, some);
      }
    }
  }

  lemma FewerCanLeave(units: seq<StockUnit>, named: seq<Named>, n: Named, from: Id)
    ensures AllCanLeave(units, named + [n], from) ==> AllCanLeave(units, named, from)
  {
    hide CanLeave;
    var all := named + [n];
    if AllCanLeave(units, all, from) {
      forall j | 0 <= j < |named| ensures CanLeave(units, named[j], from) {
        assert CanLeave(units, all[j], from);
      }
      forall i, j | 0 <= i < j < |named| ensures named[i].unit != named[j].unit {
        assert all[i].unit != all[j].unit;
      }
    }
  }

  lemma LevelsNotNegative(t: Tables, uuid: nat -> Id, b: Bucket)
    requires Set(t, uuid)
    ensures LevelIn(t.stock.levels, b) >= 0
  {
    hide Fold;
    assert LevelIn(t.stock.levels, b) == Fold(t.stock.movements, b) >= 0;
  }

  lemma DispatchLineIff(shop: Shop, t: Tables, start: Tables, transfer: Id, head: Transfer, line: TransferLine, uuid: nat -> Id,
                        named: seq<Named>)
    requires Set(t, uuid) && head.from != head.to && Progress(start, t, named, head.from, head.to)
    ensures var r := DispatchLine(shop, t, transfer, head, line, uuid);
      && (r.Ok? <==> LineFits(shop, line) && AllCanLeave(start.units, named + LineNames(shop, line), head.from)
                     && LevelIn(t.stock.levels, Bucket(line.variant, head.from, OnHand)) >= line.qty)
      && (r.Ok? ==> Set(r.value, uuid))
  {
    hide DispatchUnits, LevelIn, Settle, Set, NamesOf, AllCanLeave;
    LevelsNotNegative(t, uuid, Bucket(line.variant, head.from, OnHand));
    if shop.Serialized(line.variant) {
      DispatchUnitsIff(t, start, transfer, head, line.variant, line.units, uuid, named);
    } else {
      OutPostsIff(t, transfer, head, line.variant, None, line.qty, uuid);
      assert named + [] == named;
    }
  }

  lemma {:induction false} NamesPrefixCanLeave(units: seq<StockUnit>, named: seq<Named>, more: seq<Named>, from: Id)
    requires AllCanLeave(units, named + more, from)
    ensures AllCanLeave(units, named, from)
  {
    if more == [] {
      assert named + more == named;
    } else {
      hide AllCanLeave;
      assert named + more == (named + more[..|more| - 1]) + [more[|more| - 1]];
      FewerCanLeave(units, named + more[..|more| - 1], more[|more| - 1], from);
      NamesPrefixCanLeave(units, named, more[..|more| - 1], from);
    }
  }

  /** What is dispatchable with one more line. */
  lemma {:induction false} OneMoreLineIff(shop: Shop, t: Tables, from: Id, lines: seq<TransferLine>)
    requires lines != []
    ensures var front, last := lines[..|lines| - 1], lines[|lines| - 1];
      Dispatchable(shop, t, from, lines) <==>
        && Dispatchable(shop, t, from, front) && LineFits(shop, last)
        && AllCanLeave(t.units, Names(shop, front) + LineNames(shop, last), from)
        && last.qty <= LevelIn(t.stock.levels, Bucket(last.variant, from, OnHand)) - Sent(front, last.variant)
  {
    hide LevelIn, AllCanLeave, LineFits, LineNames;
    var front, last := lines[..|lines| - 1], lines[|lines| - 1];
    assert (forall i :: 0 <= i < |lines| ==> LineFits(shop, lines[i]))
      <==> (forall i :: 0 <= i < |front| ==> LineFits(shop, front[i])) && LineFits(shop, last);
    if Dispatchable(shop, t, from, lines) {
      NamesPrefixCanLeave(t.units, Names(shop, front), LineNames(shop, last), from);
      FitsNotNegative(shop, last);
      forall v ensures Sent(front, v) <= LevelIn(t.stock.levels, Bucket(v, from, OnHand)) {
        assert Sent(lines, v) <= LevelIn(t.stock.levels, Bucket(v, from, OnHand));
      }
      assert Sent(lines, last.variant) <= LevelIn(t.stock.levels, Bucket(last.variant, from, OnHand));
    } else if Dispatchable(shop, t, from, front) && LineFits(shop, last)
        && AllCanLeave(t.units, Names(shop, front) + LineNames(shop, last), from)
        && last.qty <= LevelIn(t.stock.levels, Bucket(last.variant, from, OnHand)) - Sent(front, last.variant) {
      forall v ensures Sent(lines, v) <= LevelIn(t.stock.levels, Bucket(v, from, OnHand)) {
        assert Sent(front, v) <= LevelIn(t.stock.levels, Bucket(v, from, OnHand));
      }
    }
  }

  lemma FitsNotNegative(shop: Shop, line: TransferLine)
    requires LineFits(shop, line)
    ensures line.qty >= 0
  {
  }

  lemma {:induction false} DispatchLinesIff(shop: Shop, t: Tables, transfer: Id, head: Transfer, lines: seq<TransferLine>, uuid: nat -> Id)
    requires Set(t, uuid) && head.from != head.to
    ensures var r := DispatchLines(shop, t, transfer, head, lines, uuid);
      && (r.Ok? <==> Dispatchable(shop, t, head.from, lines))
      && (r.Ok? ==> Set(r.value, uuid))
  {
    hide DispatchLine, LevelIn, Set, LineFits, LineNames;
    if lines == [] {
      forall v ensures Sent(lines, v) <= LevelIn(t.stock.levels, Bucket(v, head.from, OnHand)) {
        LevelsNotNegative(t, uuid, Bucket(v, head.from, OnHand));
      }
    } else {
      hide Dispatchable, AllCanLeave, Progress;
      var front, last := lines[..|lines| - 1], lines[|lines| - 1];
      DispatchLinesIff(shop, t, transfer, head, front, uuid);
      OneMoreLineIff(shop, t, head.from, lines);
      var r := DispatchLines(shop, t, transfer, head, front, uuid);
      if r.Ok? {
        DispatchLinesSay(shop, t, transfer, head, front, uuid);
        DispatchLineIff(shop, r.value, t, transfer, head, last, uuid, Names(shop, front));
        var b := Bucket(last.variant, head.from, OnHand);
        assert LevelIn(r.value.stock.levels, b) == LevelIn(t.stock.levels, b) + DispatchChange(head.from, head.to, front)(b);
      }
    }
  }

  /**
   * A dispatch is accepted exactly when the transfer is new and leads somewhere else, every named unit
   * is of its line's variant, in stock at the start and named once, and the shelf has enough of each
   * variant for all lines together.
   */
  lemma DispatchAcceptedIff(shop: Shop, t: Tables, transfer: Id, from: Id, to: Id, lines: seq<TransferLine>, uuid: nat -> Id)
    requires LedgerOk(t.stock) && FreshIds(uuid, t.stock.movements)
    ensures Dispatched(shop, t, transfer, from, to, lines, uuid).Ok? <==>
      transfer !in t.transfers && from != to && Dispatchable(shop, t, from, lines)
  {
    hide DispatchLines, LevelIn, LedgerOk, FreshIds, LineFits, Names, AllCanLeave, Sent;
    if transfer !in t.transfers && from != to {
      var head := Transfer(from, to, false);
      DispatchLinesIff(shop, t.(transfers := t.transfers[transfer := head]), transfer, head, lines, uuid);
    }
  }

  // ---------------------------------------------------------------- receiving a transfer

  /** The movement sent stock on this transfer. */
  predicate OnTransfer(m: Movement, transfer: Id) {
    m.kind == TransferOut && m.reference.kind == "transfer" && m.reference.id == transfer
  }

  /** How much of a variant the transfer sent, by its ledger rows. */
  function CarriedQty(ms: seq<Movement>, transfer: Id, variant: Id): int {
    if ms == [] then 0
    else
      var m := ms[|ms| - 1];
      CarriedQty(ms[..|ms| - 1], transfer, variant) + (if OnTransfer(m, transfer) && m.variant == variant then m.qty else 0)
  }

  /** How many units of the variant are among the legs. */
  function LegsFor(legs: seq<Movement>, variant: Id): nat {
    if legs == [] then 0 else LegsFor(legs[..|legs| - 1], variant) + (if legs[|legs| - 1].variant == variant then 1 else 0)
  }

  lemma {:induction false} CarriedSplits(shop: Shop, ms: seq<Movement>, units: seq<StockUnit>, transfers: map<Id, Transfer>,
                                         transfer: Id, variant: Id)
    requires LegsOk(shop, ms, units, transfers)
    ensures CarriedQty(ms, transfer, variant) == 1000 * LegsFor(UnitLegs(ms, transfer), variant) + BulkSum(ms, transfer, variant)
  {
    if ms != [] {
      hide HeadsFor;
      var front, m := ms[..|ms| - 1], ms[|ms| - 1];
      forall i | 0 <= i < |front| ensures LegOk(shop, front[i], units, transfers) {
        assert LegOk(shop, ms[i], units, transfers);
      }
      CarriedSplits(shop, front, units, transfers, transfer, variant);
      assert LegOk(shop, m, units, transfers);
      var legs := UnitLegs(front, transfer);
      assert (legs + [m])[..|legs|] == legs;
    }
  }

  /** The transfer's variants moved by quantity are listed once each, and all of them. */
  lemma {:induction false} BulkVariantsIff(ms: seq<Movement>, transfer: Id, variant: Id)
    ensures variant !in BulkVariants(ms, transfer) ==> BulkSum(ms, transfer, variant) == 0
    ensures NoDuplicates(BulkVariants(ms, transfer))
  {
    if ms != [] {
      BulkVariantsIff(ms[..|ms| - 1], transfer, variant);
    }
  }

  /** One of the legs carries unit `k` of the table. */
  ghost predicate LegHits(units: seq<StockUnit>, legs: seq<Movement>, k: nat) {
    exists j :: 0 <= j < |legs| && legs[j].unit.Some? && Find(units, legs[j].unit.value) == Some(k)
  }

  /** Exactly the carried units that were under way are in stock at the place; every other unit is as it was. */
  ghost predicate OnlyCarriedLanded(before: seq<StockUnit>, after: seq<StockUnit>, legs: seq<Movement>, to: Id) {
    && |after| == |before|
    && (forall k: nat :: k < |before| ==>
          after[k] == if before[k].state == OnTheWay && LegHits(before, legs, k)
                      then before[k].(state := InStock, location := Some(to)) else before[k])
  }

  lemma {:induction false} LandUnitSays(t: Tables, start: seq<StockUnit>, transfer: Id, to: Id, legs: seq<Movement>, leg: Movement, uuid: nat -> Id)
    requires leg.unit.Some? && LandUnit(t, transfer, to, leg, uuid).Ok?
    requires OnlyCarriedLanded(start, t.units, legs, to) && forall x :: Find(t.units, x) == Find(start, x)
    ensures var after := LandUnit(t, transfer, to, leg, uuid).value;
      && OnlyStockAndUnits(t, after)
      && OnlyCarriedLanded(start, after.units, legs + [leg], to) && (forall x :: Find(after.units, x) == Find(start, x))
      && forall b :: LevelIn(after.stock.levels, b) == LevelIn(t.stock.levels, b)
           + (if b == Bucket(leg.variant, to, OnHand) then 1000 else 0)
           - (if b == Bucket(leg.variant, to, InTransit) then 1000 else 0)
  {
    hide Settle, LevelIn, Find;
    var staged := t.(units := LandedUnits(t.units, leg.unit.value, to));
    SettleSays(staged, InOf(transfer, to, leg.variant, leg.unit, WHOLE, NextId(t, uuid)));
    forall x ensures Find(staged.units, x) == Find(t.units, x) {
      if Find(t.units, leg.unit.value).Some? {
        var k := Find(t.units, leg.unit.value).value;
        FindUpdate(t.units, k, MovedUnit(t.units[k], InStock, to), x);
      }
    }
    LegHitsMore(start, legs, leg);
  }

  lemma {:induction false} LegHitsMore(units: seq<StockUnit>, legs: seq<Movement>, leg: Movement)
    requires leg.unit.Some?
    ensures forall i: nat :: LegHits(units, legs + [leg], i) <==> LegHits(units, legs, i) || Find(units, leg.unit.value) == Some(i)
  {
    hide Find;
    var all := legs + [leg];
    forall i: nat ensures LegHits(units, all, i) <==> LegHits(units, legs, i) || Find(units, leg.unit.value) == Some(i) {
      if LegHits(units, legs, i) {
        var j :| 0 <= j < |legs| && legs[j].unit.Some? && Find(units, legs[j].unit.value) == Some(i);
        assert all[j] == legs[j];
      }
      assert all[|legs|] == leg;
    }
  }

  lemma {:induction false} LandUnitsSay(t: Tables, transfer: Id, to: Id, legs: seq<Movement>, uuid: nat -> Id)
    requires (forall m :: m in legs ==> m.unit.Some?) && LandUnits(t, transfer, to, legs, uuid).Ok?
    ensures var after := LandUnits(t, transfer, to, legs, uuid).value;
      && OnlyStockAndUnits(t, after)
      && OnlyCarriedLanded(t.units, after.units, legs, to) && (forall x :: Find(after.units, x) == Find(t.units, x))
      && forall b :: LevelIn(after.stock.levels, b) == LevelIn(t.stock.levels, b)
           + (if b.location == to && b.state == OnHand then 1000 * LegsFor(legs, b.variant) else 0)
           - (if b.location == to && b.state == InTransit then 1000 * LegsFor(legs, b.variant) else 0)
  {
    hide LandUnit, LevelIn, Find;
    if legs != [] {
      hide OnlyCarriedLanded;
      var front, last := legs[..|legs| - 1], legs[|legs| - 1];
      assert forall m :: m in front ==> m in legs;
      LandUnitsSay(t, transfer, to, front, uuid);
      var done := LandUnits(t, transfer, to, front, uuid).value;
      assert legs == front + [last];
      LandUnitSays(done, t.units, transfer, to, front, last, uuid);
    }
  }

  lemma {:induction false} LandBulkSays(t: Tables, sent: seq<Movement>, transfer: Id, to: Id, variants: seq<Id>, uuid: nat -> Id)
    requires NoDuplicates(variants) && LandBulk(t, sent, transfer, to, variants, uuid).Ok?
    ensures var after := LandBulk(t, sent, transfer, to, variants, uuid).value;
      && after == t.(stock := after.stock) && t.stock.movements <= after.stock.movements
      && forall b :: LevelIn(after.stock.levels, b) == LevelIn(t.stock.levels, b)
           + (if b.location == to && b.state == OnHand && b.variant in variants then BulkSum(sent, transfer, b.variant) else 0)
           - (if b.location == to && b.state == InTransit && b.variant in variants then BulkSum(sent, transfer, b.variant) else 0)
  {
    hide Settle, LevelIn, BulkSum;
    if variants != [] {
      var front, v := variants[..|variants| - 1], variants[|variants| - 1];
      LandBulkSays(t, sent, transfer, to, front, uuid);
      var done := LandBulk(t, sent, transfer, to, front, uuid).value;
      var m := InOf(transfer, to, v, None, BulkSum(sent, transfer, v), NextId(done, uuid));
      SettleSays(done, m);
      assert ToBucket(m) == Bucket(v, to, OnHand) && FromBucket(m) == Bucket(v, to, InTransit) && m.qty == BulkSum(sent, transfer, v);
      assert v !in front;
      forall x ensures x in variants <==> x in front || x == v {
        assert variants == front + [v];
      }
      hide LandBulk, InOf;
    }
  }

  /** What a receipt moves from the road to the shelf: all the transfer carried. */
  function LandingChange(ms: seq<Movement>, transfer: Id, to: Id): Bucket -> int {
    (b: Bucket) => (if b.location == to && b.state == OnHand then CarriedQty(ms, transfer, b.variant) else 0)
                   - (if b.location == to && b.state == InTransit then CarriedQty(ms, transfer, b.variant) else 0)
  }

  /** All the receipt of a transfer does: everything it carried lands, unit by unit and by quantity, and it closes. */
  lemma {:induction false} TransferReceivedSays(shop: Shop, t: Tables, transfer: Id, uuid: nat -> Id)
    requires UnitsSound(shop, t) && TransferReceived(t, transfer, uuid).Ok?
    ensures var after := TransferReceived(t, transfer, uuid).value;
      && transfer in t.transfers && !t.transfers[transfer].received
      && after == t.(stock := after.stock, units := after.units,
                     transfers := t.transfers[transfer := t.transfers[transfer].(received := true)])
      && t.stock.movements <= after.stock.movements
      && OnlyCarriedLanded(t.units, after.units, UnitLegs(t.stock.movements, transfer), t.transfers[transfer].to)
      && Shifted(t, after, LandingChange(t.stock.movements, transfer, t.transfers[transfer].to))
  {
    hide LandUnits, LandBulk, UnitLegs, BulkVariants, BulkSum, CarriedQty, LevelIn, OnlyCarriedLanded, LedgerOk, Agrees, Find, LegsOk;
    var sent, to := t.stock.movements, t.transfers[transfer].to;
    LandUnitsSay(t, transfer, to, UnitLegs(sent, transfer), uuid);
    var landed := LandUnits(t, transfer, to, UnitLegs(sent, transfer), uuid).value;
    BulkVariantsIff(sent, transfer, "");
    LandBulkSays(landed, sent, transfer, to, BulkVariants(sent, transfer), uuid);
    var after := TransferReceived(t, transfer, uuid).value;
    forall b ensures LevelIn(after.stock.levels, b) == LevelIn(t.stock.levels, b) + LandingChange(sent, transfer, to)(b) {
      CarriedSplits(shop, sent, t.units, t.transfers, transfer, b.variant);
      BulkVariantsIff(sent, transfer, b.variant);
    }
  }

  /** The units a receipt looks at are exactly those the ledger says the transfer sent. */
  lemma {:induction false} UnitLegsIff(ms: seq<Movement>, transfer: Id, m: Movement)
    ensures m in UnitLegs(ms, transfer) <==> m in ms && OnTransfer(m, transfer) && m.unit.Some?
  {
    if ms != [] {
      UnitLegsIff(ms[..|ms| - 1], transfer, m);
      assert ms == ms[..|ms| - 1] + [ms[|ms| - 1]];
    }
  }

  /** A transfer can be received exactly when it was dispatched and not received yet. */
  lemma TransferReceivedIff(shop: Shop, t: Tables, transfer: Id, uuid: nat -> Id)
    requires UnitsSound(shop, t) && FreshIds(uuid, t.stock.movements)
    ensures TransferReceived(t, transfer, uuid).Ok? <==> transfer in t.transfers && !t.transfers[transfer].received
    ensures TransferReceived(t, transfer, uuid) == Err(TransferNotFound) <==> transfer !in t.transfers
  {
    hide LandUnits, LandBulk, UnitLegs, BulkVariants, UnitsSound, FreshIds;
    if transfer in t.transfers && !t.transfers[transfer].received {
      OpenTransferCanBeReceived(shop, t, transfer, uuid);
    }
  }

  // ---------------------------------------------------------------- repairs

  /** All a repair does: the unit's state, and one whole unit from one bucket of its place to the other. */
  ghost predicate Repaired(t: Tables, after: Tables, unit: Id, state: UnitState, from: StockState, to: StockState) {
    && Find(t.units, unit).Some?
    && var k := Find(t.units, unit).value;
       var u := t.units[k];
       && u.location.Some?
       && OnlyStockAndUnits(t, after)
       && |after.units| == |t.units| && after.units[k] == u.(state := state)
       && (forall i :: 0 <= i < |t.units| && i != k ==> after.units[i] == t.units[i])
       && (forall b :: LevelIn(after.stock.levels, b) == LevelIn(t.stock.levels, b)
             + (if b == Bucket(u.variant, u.location.value, to) then 1000 else 0)
             - (if b == Bucket(u.variant, u.location.value, from) then 1000 else 0))
  }

  /** Out to repair from the shelf, from any state but in repair, sold, reserved, under way, written off or not yet in. */
  lemma {:induction false} SentToRepairSays(t: Tables, unit: Id, uuid: nat -> Id)
    requires SentToRepair(t, unit, uuid).Ok?
    ensures var k := Find(t.units, unit);
      k.Some? && t.units[k.value].state in {InStock, BackForCheck, Broken}
      && Repaired(t, SentToRepair(t, unit, uuid).value, unit, InRepair, OnHand, Damaged)
  {
    hide Settle, LevelIn, Find;
    var k := Find(t.units, unit).value;
    var u := t.units[k];
    var staged := t.(units := t.units[k := MovedUnit(u, InRepair, u.location.value)]);
    SettleSays(staged, RepairOutOf(u, u.location.value, NextId(t, uuid)));
  }

  /** Back from repair to the shelf, only from repair. */
  lemma {:induction false} BackFromRepairSays(t: Tables, unit: Id, uuid: nat -> Id)
    requires BackFromRepair(t, unit, uuid).Ok?
    ensures var k := Find(t.units, unit);
      k.Some? && t.units[k.value].state == InRepair
      && Repaired(t, BackFromRepair(t, unit, uuid).value, unit, InStock, Damaged, OnHand)
  {
    hide Settle, LevelIn, Find;
    var k := Find(t.units, unit).value;
    var u := t.units[k];
    var staged := t.(units := t.units[k := MovedUnit(u, InStock, u.location.value)]);
    SettleSays(staged, RepairInOf(u, u.location.value, NextId(t, uuid)));
  }
}
