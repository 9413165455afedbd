/** The drift check: the ledger folded per bucket, joined with the levels, and reported per tenant. */
module DriftCheck {
  import opened Ledger
  import StockModel
  import StockRuns

  /** A bucket of one tenant; the check reads all tenants at once. */
  datatype TenantBucket = TenantBucket(tenant: Id, bucket: Bucket)

  datatype TenantMovement = TenantMovement(tenant: Id, movement: Movement)

  datatype Finding = Finding(at: TenantBucket, ledgerQty: int, levelQty: int, driftQty: int)

  function OfTenant(ms: seq<TenantMovement>, tenant: Id): seq<Movement> {
    if ms == [] then []
    else
      var front, m := OfTenant(ms[..|ms| - 1], tenant), ms[|ms| - 1];
      if m.tenant == tenant then front + [m.movement] else front
  }

  /** `sum(qty) … GROUP BY`: one entry per bucket any movement of the tenant names. */
  function Folded(ms: seq<TenantMovement>): map<TenantBucket, int> {
    if ms == [] then map[]
    else
      var m := ms[|ms| - 1];
      var credited := if m.movement.to.Some?
        then Plus(Folded(ms[..|ms| - 1]), TenantBucket(m.tenant, ToBucket(m.movement)), m.movement.qty)
        else Folded(ms[..|ms| - 1]);
      if m.movement.from.Some?
      then Plus(credited, TenantBucket(m.tenant, FromBucket(m.movement)), -m.movement.qty)
      else credited
  }

  function Plus(sums: map<TenantBucket, int>, b: TenantBucket, amount: int): map<TenantBucket, int> {
    sums[b := At(sums, b) + amount]
  }

  /** `coalesce(quantity, 0)`. */
  function At(sums: map<TenantBucket, int>, b: TenantBucket): int {
    if b in sums then sums[b] else 0
  }

  lemma PlusAt(sums: map<TenantBucket, int>, b: TenantBucket, amount: int, c: TenantBucket)
    ensures At(Plus(sums, b, amount), c) == At(sums, c) + (if c == b then amount else 0)
  {
  }

  lemma {:induction false} FoldedStep(ms: seq<TenantMovement>, m: TenantMovement, b: TenantBucket)
    ensures At(Folded(ms + [m]), b) == At(Folded(ms), b) + (if m.tenant == b.tenant then Delta(m.movement, b.bucket) else 0)
  {
    assert (ms + [m])[..|ms|] == ms;
    hide Plus, At;
    var sums := Folded(ms);
    if m.movement.to.Some? {
      PlusAt(sums, TenantBucket(m.tenant, ToBucket(m.movement)), m.movement.qty, b);
      sums := Plus(sums, TenantBucket(m.tenant, ToBucket(m.movement)), m.movement.qty);
    }
    if m.movement.from.Some? {
      PlusAt(sums, TenantBucket(m.tenant, FromBucket(m.movement)), -m.movement.qty, b);
    }
  }

  /** The grouped sums are the fold of each tenant's own ledger. */
  lemma {:induction false} FoldedIsFold(ms: seq<TenantMovement>, b: TenantBucket)
    ensures At(Folded(ms), b) == Fold(OfTenant(ms, b.tenant), b.bucket)
  {
    if ms == [] {
      assert Folded(ms) == map[] && Fold([], b.bucket) == 0;
    } else {
      hide Folded, Fold, Delta;
      var front, m := ms[..|ms| - 1], ms[|ms| - 1];
      FoldedIsFold(front, b);
      assert front + [m] == ms;
      FoldedStep(front, m, b);
      FoldOne(OfTenant(front, b.tenant), m.movement, b.bucket);
    }
  }

  /** The full outer join, kept where the two sides differ. */
  function Findings(ms: seq<TenantMovement>, levels: map<TenantBucket, int>): set<Finding> {
    var sums := Folded(ms);
    set b | b in sums.Keys + levels.Keys && At(sums, b) != At(levels, b) ::
      Finding(b, At(sums, b), At(levels, b), At(levels, b) - At(sums, b))
  }

  /** Every level is what the tenant's ledger says. */
  ghost predicate InSync(ms: seq<TenantMovement>, levels: map<TenantBucket, int>) {
    forall b :: At(levels, b) == Fold(OfTenant(ms, b.tenant), b.bucket)
  }

  lemma {:induction false} FindingsAre(ms: seq<TenantMovement>, levels: map<TenantBucket, int>, f: Finding)
    ensures f in Findings(ms, levels) <==>
      && At(levels, f.at) != Fold(OfTenant(ms, f.at.tenant), f.at.bucket)
      && f == Finding(f.at, Fold(OfTenant(ms, f.at.tenant), f.at.bucket), At(levels, f.at),
                      At(levels, f.at) - Fold(OfTenant(ms, f.at.tenant), f.at.bucket))
  {
    hide Folded, OfTenant, Fold;
    FoldedIsFold(ms, f.at);
  }

  /** Nothing is reported exactly when levels and ledger agree everywhere. */
  lemma QuietIffInSync(ms: seq<TenantMovement>, levels: map<TenantBucket, int>)
    ensures Findings(ms, levels) == {} <==> InSync(ms, levels)
  {
    hide Findings, OfTenant, Fold;
    if InSync(ms, levels) {
      forall f ensures f !in Findings(ms, levels) {
        FindingsAre(ms, levels, f);
      }
    }
    if Findings(ms, levels) == {} {
      forall b ensures At(levels, b) == Fold(OfTenant(ms, b.tenant), b.bucket) {
        var q := Fold(OfTenant(ms, b.tenant), b.bucket);
        FindingsAre(ms, levels, Finding(b, q, At(levels, b), At(levels, b) - q));
      }
    }
  }

  /** The tables every tenant's run of stock operations leaves, as the check reads them. */
  ghost predicate AreTheRunsOf(ms: seq<TenantMovement>, levels: map<TenantBucket, int>,
                               shops: Id -> StockModel.Shop, runs: Id -> seq<StockRuns.Event>) {
    && (forall tenant :: OfTenant(ms, tenant) == StockRuns.Run(shops(tenant), runs(tenant)).stock.movements)
    && (forall b :: At(levels, b) == LevelIn(StockRuns.Run(shops(b.tenant), runs(b.tenant)).stock.levels, b.bucket))
  }

  /** After any runs of stock operations, one per tenant and interleaved in any way, nothing is reported. */
  lemma RunsDoNotDrift(ms: seq<TenantMovement>, levels: map<TenantBucket, int>,
                       shops: Id -> StockModel.Shop, runs: Id -> seq<StockRuns.Event>)
    requires AreTheRunsOf(ms, levels, shops, runs)
    ensures Findings(ms, levels) == {}
  {
    hide OfTenant, At, Findings, Fold, StockRuns.Run;
    forall b ensures At(levels, b) == Fold(OfTenant(ms, b.tenant), b.bucket) {
      StockRuns.LevelsAreTheLedger(shops(b.tenant), runs(b.tenant), b.bucket);
    }
    QuietIffInSync(ms, levels);
  }

  /** When levels are altered outside the ledger, exactly the altered buckets are reported, with the exact difference. */
  lemma AlteredBucketsAreFound(ms: seq<TenantMovement>, sound: map<TenantBucket, int>, altered: map<TenantBucket, int>, b: TenantBucket)
    requires InSync(ms, sound)
    ensures At(altered, b) != At(sound, b) <==>
      Finding(b, At(sound, b), At(altered, b), At(altered, b) - At(sound, b)) in Findings(ms, altered)
    ensures forall f :: f in Findings(ms, altered) && f.at == b ==> f.driftQty == At(altered, b) - At(sound, b) != 0
  {
    hide Findings, OfTenant, Fold;
    assert At(sound, b) == Fold(OfTenant(ms, b.tenant), b.bucket);
    FindingsAre(ms, altered, Finding(b, At(sound, b), At(altered, b), At(altered, b) - At(sound, b)));
    forall f | f in Findings(ms, altered) && f.at == b
      ensures f.driftQty == At(altered, b) - At(sound, b) != 0
    {
      FindingsAre(ms, altered, f);
    }
  }

  /** The findings of one tenant, in order. */
  function ForTenant(fs: seq<Finding>, tenant: Id): seq<Finding> {
    if fs == [] then []
    else
      var front, f := ForTenant(fs[..|fs| - 1], tenant), fs[|fs| - 1];
      if f.at.tenant == tenant then front + [f] else front
  }

  /** A tenant's list holds each of its findings as often as it was found, and nobody else's, … */
  lemma {:induction false} ListedAsFound(fs: seq<Finding>, tenant: Id, f: Finding)
    ensures multiset(ForTenant(fs, tenant))[f] == if f.at.tenant == tenant then multiset(fs)[f] else 0
  {
    if fs != [] {
      ListedAsFound(fs[..|fs| - 1], tenant, f);
      assert fs == fs[..|fs| - 1] + [fs[|fs| - 1]];
    }
  }

  /** … in the order they were found. */
  lemma {:induction false} ListedInOrder(early: seq<Finding>, late: seq<Finding>, tenant: Id)
    ensures ForTenant(early + late, tenant) == ForTenant(early, tenant) + ForTenant(late, tenant)
  {
    if late == [] {
      assert early + late == early;
    } else {
      ListedInOrder(early, late[..|late| - 1], tenant);
      assert (early + late)[..|early + late| - 1] == early + late[..|late| - 1];
    }
  }

  /** One alarm per tenant: every finding goes to its own tenant's list and to no other. */
  method GroupByTenant(fs: seq<Finding>) returns (groups: map<Id, seq<Finding>>)
    ensures forall tenant :: (if tenant in groups then groups[tenant] else []) == ForTenant(fs, tenant)
    ensures forall tenant :: tenant in groups <==> ForTenant(fs, tenant) != []
  {
    groups := map[];
    var i := 0;
    while i < |fs|
      invariant 0 <= i <= |fs|
      invariant forall tenant :: (if tenant in groups then groups[tenant] else []) == ForTenant(fs[..i], tenant)
      invariant forall tenant :: tenant in groups <==> ForTenant(fs[..i], tenant) != []
    {
      assert fs[..i + 1][..i] == fs[..i];
      var tenant := fs[i].at.tenant;
      var listed := if tenant in groups then groups[tenant] else [];
      groups := groups[tenant := listed + [fs[i]]];
      i := i + 1;
    }
    assert fs[..i] == fs;
  }
}
