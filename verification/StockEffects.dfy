/** What receipts, transfers and repairs do, said bucket by bucket and unit by unit over the tables before and after. */
module StockEffects {
  import opened Common
  import opened Ledger
  import opened Serialized
  import opened StockModel
  import opened StockUnits

  // ---------------------------------------------------------------- one movement

  /** The levels after are the levels before and what `change` adds at each bucket. */
  ghost predicate Shifted(before: Tables, after: Tables, change: Bucket -> int) {
    forall b :: LevelIn(after.stock.levels, b) == LevelIn(before.stock.levels, b) + change(b)
  }

  /** Nothing but stock and units changed, and the ledger only grew. */
  predicate OnlyStockAndUnits(before: Tables, after: Tables) {
    && after == before.(stock := after.stock, units := after.units)
    && before.stock.movements <= after.stock.movements
  }

  /** One posting: credit at its target, debit at its source, which had enough; one ledger row. */
  lemma SettleSays(t: Tables, m: Movement)
    requires Settle(t, m).Ok?
    ensures var after := Settle(t, m).value;
      && after == t.(stock := after.stock) && after.stock.movements == t.stock.movements + [m]
      && (forall b :: LevelIn(after.stock.levels, b) == LevelIn(t.stock.levels, b)
            + (if m.to.Some? && ToBucket(m) == b then m.qty else 0) - (if m.from.Some? && FromBucket(m) == b then m.qty else 0))
      && (m.from.Some? ==> LevelIn(t.stock.levels, FromBucket(m)) >= m.qty)
      && m.qty > 0
  {
    hide ShapeError, Moved;
  }

  // ---------------------------------------------------------------- receiving

  /** What a line brings in, in thousandths. */
  function Worth(shop: Shop, line: ReceiveLine): int {
    if shop.Serialized(line.variant) then 1000 * |line.units|
    else match line.qty case None => 0 case Some(q) => q
  }

  function Arriving(shop: Shop, lines: seq<ReceiveLine>, variant: Id): int {
    if lines == [] then 0
    else
      var last := lines[|lines| - 1];
      Arriving(shop, lines[..|lines| - 1], variant) + (if last.variant == variant then Worth(shop, last) else 0)
  }

  datatype Scan = Scan(variant: Id, unit: NewUnit)

  function ScansOf(variant: Id, ns: seq<NewUnit>): (scans: seq<Scan>)
    ensures |scans| == |ns|
  {
    if ns == [] then [] else ScansOf(variant, ns[..|ns| - 1]) + [Scan(variant, ns[|ns| - 1])]
  }

  /** The scans of one line. */
  function LineScans(shop: Shop, line: ReceiveLine): seq<Scan> {
    if shop.Serialized(line.variant) then ScansOf(line.variant, line.units) else []
  }

  /** Every unit the receipt lists, in order. */
  function Scans(shop: Shop, lines: seq<ReceiveLine>): seq<Scan> {
    if lines == [] then [] else Scans(shop, lines[..|lines| - 1]) + LineScans(shop, lines[|lines| - 1])
  }

  /** The stored unit is what was scanned, in stock at the place. */
  predicate StoredAs(u: StockUnit, s: Scan, location: Id) {
    && u.variant == s.variant && u.imei1 == s.unit.imei1 && u.imei2 == s.unit.imei2 && u.serial == s.unit.serial
    && u.state == InStock && u.location == Some(location)
  }

  /** The units before, and behind them one for each scan. */
  ghost predicate Stored(before: seq<StockUnit>, after: seq<StockUnit>, scans: seq<Scan>, location: Id) {
    && |after| == |before| + |scans| && after[..|before|] == before
    && forall k :: 0 <= k < |scans| ==> StoredAs(after[|before| + k], scans[k], location)
  }

  lemma StoredMore(before: seq<StockUnit>, middle: seq<StockUnit>, after: seq<StockUnit>, some: seq<Scan>, more: seq<Scan>, location: Id)
    requires Stored(before, middle, some, location) && Stored(middle, after, more, location)
    ensures Stored(before, after, some + more, location)
  {
    assert after[..|before|] == after[..|middle|][..|before|];
    forall k | 0 <= k < |some + more| ensures StoredAs(after[|before| + k], (some + more)[k], location) {
      if k < |some| {
        assert after[|before| + k] == after[..|middle|][|before| + k];
      } else {
        assert after[|middle| + (k - |some|)] == after[|before| + k];
      }
    }
  }

  /** What a receipt adds to a bucket. */
  function ReceiptChange(shop: Shop, location: Id, lines: seq<ReceiveLine>): Bucket -> int {
    (b: Bucket) => if b.location == location && b.state == OnHand then Arriving(shop, lines, b.variant) else 0
  }

  lemma ReceiveUnitSays(t: Tables, grn: Id, location: Id, variant: Id, n: NewUnit, uuid: nat -> Id, unitId: nat -> Id)
    requires ReceiveUnit(t, grn, location, variant, n, uuid, unitId).Ok?
    ensures var after := ReceiveUnit(t, grn, location, variant, n, uuid, unitId).value;
      && OnlyStockAndUnits(t, after) && Stored(t.units, after.units, [Scan(variant, n)], location)
      && forall b :: LevelIn(after.stock.levels, b) == LevelIn(t.stock.levels, b) + (if b == Bucket(variant, location, OnHand) then 1000 else 0)
  {
    hide Settle, ImeiTaken, SerialTaken, ValidImei, Find;
    var id := unitId(|t.stock.movements|);
    var staged := t.(units := t.units + [StockUnit(id, variant, n.imei1, n.imei2, n.serial, InStock, Some(location))]);
    SettleSays(staged, ReceiptOf(grn, location, variant, Some(id), WHOLE, NextId(t, uuid)));
  }

  lemma {:induction false} ReceiveUnitsSay(t: Tables, grn: Id, location: Id, variant: Id, ns: seq<NewUnit>,
                                           uuid: nat -> Id, unitId: nat -> Id)
    requires ReceiveUnits(t, grn, location, variant, ns, uuid, unitId).Ok?
    ensures var after := ReceiveUnits(t, grn, location, variant, ns, uuid, unitId).value;
      && OnlyStockAndUnits(t, after) && Stored(t.units, after.units, ScansOf(variant, ns), location)
      && forall b :: LevelIn(after.stock.levels, b) == LevelIn(t.stock.levels, b)
           + (if b == Bucket(variant, location, OnHand) then 1000 * |ns| else 0)
  {
    hide ReceiveUnit, LevelIn;
    if ns != [] {
      ReceiveUnitsSay(t, grn, location, variant, ns[..|ns| - 1], uuid, unitId);
      var done := ReceiveUnits(t, grn, location, variant, ns[..|ns| - 1], uuid, unitId).value;
      ReceiveUnitSays(done, grn, location, variant, ns[|ns| - 1], uuid, unitId);
      hide Stored;
      StoredMore(t.units, done.units, ReceiveUnits(t, grn, location, variant, ns, uuid, unitId).value.units,
                 ScansOf(variant, ns[..|ns| - 1]), [Scan(variant, ns[|ns| - 1])], location);
    } else {
      NothingStored(t.units, location);
    }
  }

  lemma NothingStored(units: seq<StockUnit>, location: Id)
    ensures Stored(units, units, [], location)
  {
  }

  lemma ReceiveOneSays(shop: Shop, t: Tables, grn: Id, location: Id, line: ReceiveLine, uuid: nat -> Id, unitId: nat -> Id)
    requires ReceiveOne(shop, t, grn, location, line, uuid, unitId).Ok?
    ensures var after := ReceiveOne(shop, t, grn, location, line, uuid, unitId).value;
      && OnlyStockAndUnits(t, after)
      && Stored(t.units, after.units, LineScans(shop, line), location)
      && forall b :: LevelIn(after.stock.levels, b) == LevelIn(t.stock.levels, b)
           + (if b == Bucket(line.variant, location, OnHand) then Worth(shop, line) else 0)
  {
    hide ReceiveUnits, Settle, LevelIn, Stored;
    if shop.Serialized(line.variant) {
      ReceiveUnitsSay(t, grn, location, line.variant, line.units, uuid, unitId);
    } else {
      SettleSays(t, ReceiptOf(grn, location, line.variant, None, line.qty.value, NextId(t, uuid)));
      NothingStored(t.units, location);
    }
  }

  /** A receipt: each variant's on-hand stock at the place rises by what its lines bring, and each scanned unit is stored. */
  lemma {:induction false} ReceiptSays(shop: Shop, t: Tables, grn: Id, location: Id, lines: seq<ReceiveLine>,
                                       uuid: nat -> Id, unitId: nat -> Id)
    requires ReceiveLines(shop, t, grn, location, lines, uuid, unitId).Ok?
    ensures var after := ReceiveLines(shop, t, grn, location, lines, uuid, unitId).value;
      && OnlyStockAndUnits(t, after)
      && Stored(t.units, after.units, Scans(shop, lines), location)
      && Shifted(t, after, ReceiptChange(shop, location, lines))
  {
    hide ReceiveOne, LevelIn, Stored, Worth, ScansOf;
    if lines != [] {
      var front, last := lines[..|lines| - 1], lines[|lines| - 1];
      ReceiptSays(shop, t, grn, location, front, uuid, unitId);
      var done := ReceiveLines(shop, t, grn, location, front, uuid, unitId).value;
      ReceiveOneSays(shop, done, grn, location, last, uuid, unitId);
      var after := ReceiveLines(shop, t, grn, location, lines, uuid, unitId).value;
      StoredMore(t.units, done.units, after.units, Scans(shop, front), LineScans(shop, last), location);
      forall b ensures LevelIn(after.stock.levels, b) == LevelIn(t.stock.levels, b) + ReceiptChange(shop, location, lines)(b) {
        assert LevelIn(done.stock.levels, b) == LevelIn(t.stock.levels, b) + ReceiptChange(shop, location, front)(b);
      }
    } else {
      NothingStored(t.units, location);
    }
  }

  // ---------------------------------------------------------------- which receipts are accepted

  /** A unit that may be stored: valid IMEIs, and at least one identity. */
  predicate Storable(n: NewUnit) {
    && (n.imei1.Some? ==> ValidImei(n.imei1.value)) && (n.imei2.Some? ==> ValidImei(n.imei2.value))
    && (n.imei1.Some? || n.serial.Some?)
  }

  predicate Receivable(shop: Shop, line: ReceiveLine) {
    && line.variant in shop.tracking
    && (if shop.tracking[line.variant] then line.units != [] && forall i :: 0 <= i < |line.units| ==> Storable(line.units[i])
        else line.qty.Some? && line.qty.value > 0)
  }

  /** The stored unit has an identity of the scan: the same first or second IMEI, or the same serial of the same variant. */
  predicate Collides(u: StockUnit, s: Scan) {
    || (s.unit.imei1.Some? && u.imei1 == s.unit.imei1)
    || (s.unit.imei2.Some? && u.imei2 == s.unit.imei2)
    || (s.unit.serial.Some? && u.variant == s.variant && u.serial == s.unit.serial)
  }

  /** Two scans of one receipt have an identity in common. */
  predicate Same(a: Scan, b: Scan) {
    || (b.unit.imei1.Some? && a.unit.imei1 == b.unit.imei1)
    || (b.unit.imei2.Some? && a.unit.imei2 == b.unit.imei2)
    || (b.unit.serial.Some? && a.variant == b.variant && a.unit.serial == b.unit.serial)
  }

  ghost predicate NoneCollides(units: seq<StockUnit>, s: Scan) {
    forall i :: 0 <= i < |units| ==> !Collides(units[i], s)
  }

  /** No scan has an identity of a stored unit or of an earlier scan. */
  ghost predicate AllDistinct(units: seq<StockUnit>, scans: seq<Scan>) {
    && (forall k :: 0 <= k < |scans| ==> NoneCollides(units, scans[k]))
    && forall j, k :: 0 <= j < k < |scans| ==> !Same(scans[j], scans[k])
  }

  lemma TakenIff(units: seq<StockUnit>, variant: Id, n: NewUnit)
    ensures ImeiTaken(units, n) || SerialTaken(units, variant, n) <==> !NoneCollides(units, Scan(variant, n))
  {
    if i :| 0 <= i < |units| && Collides(units[i], Scan(variant, n)) {
      assert units[i] == units[i];
    }
  }

  /** The next scan collides with nothing stored so far exactly when it collides with neither the old units nor an earlier scan. */
  lemma NextDistinctIff(before: seq<StockUnit>, units: seq<StockUnit>, scans: seq<Scan>, s: Scan, location: Id)
    requires Stored(before, units, scans, location) && AllDistinct(before, scans)
    ensures NoneCollides(units, s) <==> AllDistinct(before, scans + [s])
  {
    var all := scans + [s];
    if NoneCollides(units, s) {
      forall j, k | 0 <= j < k < |all| ensures !Same(all[j], all[k]) {
        if k == |scans| {
          assert StoredAs(units[|before| + j], scans[j], location) && !Collides(units[|before| + j], s);
        }
      }
      forall k | 0 <= k < |all| ensures NoneCollides(before, all[k]) {
        if k == |scans| {
          forall i | 0 <= i < |before| ensures !Collides(before[i], s) {
            assert units[i] == units[..|before|][i] && !Collides(units[i], s);
          }
        }
      }
    }
    if AllDistinct(before, all) {
      forall i | 0 <= i < |units| ensures !Collides(units[i], s) {
        if i < |before| {
          assert units[i] == units[..|before|][i] && NoneCollides(before, all[|scans|]);
        } else {
          var j := i - |before|;
          assert StoredAs(units[|before| + j], scans[j], location) && !Same(all[j], all[|scans|]);
        }
      }
    }
  }

  /** Unit ids drawn from here on are new. */
  ghost predicate FreshUnits(unitId: nat -> Id, t: Tables) {
    && (forall i: nat :: i >= |t.stock.movements| ==> Find(t.units, unitId(i)).None?)
    && (forall i: nat, j: nat :: |t.stock.movements| <= i < j ==> unitId(i) != unitId(j))
  }

  ghost predicate Ready(t: Tables, uuid: nat -> Id, unitId: nat -> Id) {
    LedgerOk(t.stock) && FreshIds(uuid, t.stock.movements) && FreshUnits(unitId, t)
  }

  lemma ReceiptShape(grn: Id, location: Id, variant: Id, unit: Option<Id>, qty: int, id: Id)
    ensures ShapeError(ReceiptOf(grn, location, variant, unit, qty, id)).None? <==> qty > 0
  {
  }

  lemma {:induction false} FreshIsNew(uuid: nat -> Id, ms: seq<Movement>)
    requires FreshIds(uuid, ms)
    ensures uuid(|ms|) !in Ids(ms)
  {
  }

  lemma ReceiveUnitIff(t: Tables, grn: Id, location: Id, variant: Id, n: NewUnit, uuid: nat -> Id, unitId: nat -> Id)
    requires Ready(t, uuid, unitId)
    ensures var r := ReceiveUnit(t, grn, location, variant, n, uuid, unitId);
      && (r.Ok? <==> Storable(n) && NoneCollides(t.units, Scan(variant, n)))
      && (r.Ok? ==> Ready(r.value, uuid, unitId))
  {
    hide ImeiTaken, SerialTaken, ValidImei, ShapeError, Settle, LedgerOk, FreshIds, Find, NoneCollides, Ids;
    TakenIff(t.units, variant, n);
    var id := unitId(|t.stock.movements|);
    var u := StockUnit(id, variant, n.imei1, n.imei2, n.serial, InStock, Some(location));
    var m := ReceiptOf(grn, location, variant, Some(id), WHOLE, NextId(t, uuid));
    var staged := t.(units := t.units + [u]);
    ReceiptShape(grn, location, variant, Some(id), WHOLE, NextId(t, uuid));
    FreshIsNew(uuid, t.stock.movements);
    CoveredPosts(staged, m);
    SettleEffect(staged, m);
    FreshAfter(uuid, t.stock.movements, m);
    forall x ensures Find(t.units + [u], x) == if u.id == x then Some(|t.units|) else Find(t.units, x) {
      FindPush(t.units, u, x);
    }
  }

  lemma {:induction false} ReceiveUnitsIff(t: Tables, grn: Id, location: Id, variant: Id, ns: seq<NewUnit>, uuid: nat -> Id, unitId: nat -> Id,
                                           before: seq<StockUnit>, scans: seq<Scan>)
    requires Ready(t, uuid, unitId) && Stored(before, t.units, scans, location) && AllDistinct(before, scans)
    ensures var r := ReceiveUnits(t, grn, location, variant, ns, uuid, unitId);
      && (r.Ok? <==> (forall i :: 0 <= i < |ns| ==> Storable(ns[i])) && AllDistinct(before, scans + ScansOf(variant, ns)))
      && (r.Ok? ==> Ready(r.value, uuid, unitId) && Stored(before, r.value.units, scans + ScansOf(variant, ns), location))
  {
    hide ReceiveUnit, Ready, Storable;
    if ns == [] {
      assert scans + ScansOf(variant, ns) == scans;
    } else {
      var front, last := ns[..|ns| - 1], ns[|ns| - 1];
      ReceiveUnitsIff(t, grn, location, variant, front, uuid, unitId, before, scans);
      var some := scans + ScansOf(variant, front);
      assert scans + ScansOf(variant, ns) == some + [Scan(variant, last)];
      assert (forall i :: 0 <= i < |ns| ==> Storable(ns[i])) <==> (forall i :: 0 <= i < |front| ==> Storable(front[i])) && Storable(last);
      PrefixDistinct(before, some, [Scan(variant, last)]);
      var r := ReceiveUnits(t, grn, location, variant, front, uuid, unitId);
      if r.Ok? {
        hide Stored, AllDistinct, NoneCollides;
        NextDistinctIff(before, r.value.units, some, Scan(variant, last), location);
        ReceiveUnitIff(r.value, grn, location, variant, last, uuid, unitId);
        if ReceiveUnit(r.value, grn, location, variant, last, uuid, unitId).Ok? {
          ReceiveUnitSays(r.value, grn, location, variant, last, uuid, unitId);
          StoredMore(before, r.value.units, ReceiveUnits(t, grn, location, variant, ns, uuid, unitId).value.units,
                     some, [Scan(variant, last)], location);
        }
      }
    }
  }

  lemma PrefixDistinct(units: seq<StockUnit>, scans: seq<Scan>, more: seq<Scan>)
    ensures AllDistinct(units, scans + more) ==> AllDistinct(units, scans)
  {
    var all := scans + more;
    if AllDistinct(units, all) {
      forall k | 0 <= k < |scans| ensures NoneCollides(units, scans[k]) {
        assert NoneCollides(units, all[k]);
      }
      forall j, k | 0 <= j < k < |scans| ensures !Same(scans[j], scans[k]) {
        assert !Same(all[j], all[k]);
      }
    }
  }

  lemma ReceiveOneIff(shop: Shop, t: Tables, grn: Id, location: Id, line: ReceiveLine, uuid: nat -> Id, unitId: nat -> Id,
                      before: seq<StockUnit>, scans: seq<Scan>)
    requires Ready(t, uuid, unitId) && Stored(before, t.units, scans, location) && AllDistinct(before, scans)
    ensures var r := ReceiveOne(shop, t, grn, location, line, uuid, unitId);
      && (r.Ok? <==> Receivable(shop, line) && AllDistinct(before, scans + LineScans(shop, line)))
      && (r.Ok? ==> Ready(r.value, uuid, unitId) && Stored(before, r.value.units, scans + LineScans(shop, line), location))
  {
    hide ReceiveUnits, ShapeError, Settle, LedgerOk, FreshIds, Find, Stored, AllDistinct, Ids, Storable, ScansOf;
    if shop.Serialized(line.variant) {
      ReceiveUnitsIff(t, grn, location, line.variant, line.units, uuid, unitId, before, scans);
    } else {
      assert scans + [] == scans;
      if line.variant in shop.tracking && line.qty.Some? && line.qty.value > 0 {
        var m := ReceiptOf(grn, location, line.variant, None, line.qty.value, NextId(t, uuid));
        ReceiptShape(grn, location, line.variant, None, line.qty.value, NextId(t, uuid));
        FreshIsNew(uuid, t.stock.movements);
        CoveredPosts(t, m);
        SettleEffect(t, m);
        FreshAfter(uuid, t.stock.movements, m);
      }
    }
  }

  lemma {:induction false} ReceiveLinesIff(shop: Shop, t: Tables, grn: Id, location: Id, lines: seq<ReceiveLine>,
                                           uuid: nat -> Id, unitId: nat -> Id)
    requires Ready(t, uuid, unitId)
    ensures var r := ReceiveLines(shop, t, grn, location, lines, uuid, unitId);
      && (r.Ok? <==> (forall i :: 0 <= i < |lines| ==> Receivable(shop, lines[i])) && AllDistinct(t.units, Scans(shop, lines)))
      && (r.Ok? ==> Ready(r.value, uuid, unitId) && Stored(t.units, r.value.units, Scans(shop, lines), location))
  {
    hide ReceiveOne, Ready, Receivable, ScansOf;
    if lines == [] {
    } else {
      hide Stored, AllDistinct;
      var front, last := lines[..|lines| - 1], lines[|lines| - 1];
      ReceiveLinesIff(shop, t, grn, location, front, uuid, unitId);
      assert (forall i :: 0 <= i < |lines| ==> Receivable(shop, lines[i]))
        <==> (forall i :: 0 <= i < |front| ==> Receivable(shop, front[i])) && Receivable(shop, last);
      PrefixDistinct(t.units, Scans(shop, front), LineScans(shop, last));
      var r := ReceiveLines(shop, t, grn, location, front, uuid, unitId);
      if r.Ok? {
        ReceiveOneIff(shop, r.value, grn, location, last, uuid, unitId, t.units, Scans(shop, front));
      }
    }
  }

  /**
   * A receipt is accepted exactly when it has lines, each of a known variant and either a positive
   * quantity or storable units, and no unit on it has an identity of a stored unit or of an earlier one.
   */
  lemma {:induction false} ReceiptAcceptedIff(shop: Shop, t: Tables, grn: Id, location: Id, lines: seq<ReceiveLine>, uuid: nat -> Id, unitId: nat -> Id)
    requires Ready(t, uuid, unitId)
    ensures Received(shop, t, grn, location, lines, uuid, unitId).Ok? <==>
      && lines != [] && (forall i :: 0 <= i < |lines| ==> Receivable(shop, lines[i]))
      && AllDistinct(t.units, Scans(shop, lines))
  {
    hide ReceiveLines, Ready, Receivable, Scans, AllDistinct;
    ReceiveLinesIff(shop, t, grn, location, lines, uuid, unitId);
  }
}
