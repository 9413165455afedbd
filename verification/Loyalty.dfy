/** Loyalty points: one redemption and one accrual per order, across all customers. */
module Loyalty {
  import opened Common
  import opened WalletLog

  /** The tenant's settings; `None` where there is no whole number. */
  datatype Settings = Settings(earnPer: Option<int>, redeemValue: Option<int>)

  datatype Config = Config(earnPer: int, redeemValue: int)

  function SettingOr(setting: Option<int>, default: int): int {
    if setting.Some? && setting.value > 0 then setting.value else default
  }

  /** `loyaltyConfigFrom`: whatever the settings hold, both values are positive. */
  function ConfigFrom(s: Settings): (c: Config)
    ensures c.earnPer > 0 && c.redeemValue > 0
  {
    Config(SettingOr(s.earnPer, 1000), SettingOr(s.redeemValue, 5))
  }

  datatype Wallet = Wallet(points: map<Id, int>, txns: seq<Txn>)

  datatype LoyaltyError = CustomerNotFound | InsufficientPoints | ZeroPoints | OrderTaken

  /** `Math.ceil(amount / value)`. */
  function PointsFor(amount: int, value: int): int
    requires value > 0
  {
    -((-amount) / value)
  }

  /** The unique key: an order has at most one row of a kind, whoever the customer. */
  predicate Taken(txns: seq<Txn>, order: Id, kind: Kind) {
    exists i :: 0 <= i < |txns| && txns[i].order == Some(order) && txns[i].kind == kind
  }

  /** `redeemWith` inside a sale whose transaction commits or not; zero points and a taken order break constraints. */
  function RedeemedWith(w: Wallet, s: Settings, customer: Id, order: Id, amount: int, commits: bool): (Wallet, Result<int, LoyaltyError>)
  {
    var needed := PointsFor(amount, ConfigFrom(s).redeemValue);
    if customer !in w.points then (w, Err(CustomerNotFound))
    else if w.points[customer] < needed then (w, Err(InsufficientPoints))
    else if needed == 0 then (w, Err(ZeroPoints))
    else if Taken(w.txns, order, Redeem) then (w, Err(OrderTaken))
    else
      (if commits then
         Wallet(w.points[customer := w.points[customer] - needed], w.txns + [Txn(customer, Some(order), Redeem, -needed)])
       else w,
       Ok(needed))
  }

  /** `accrueWith`: nothing below one point, nothing for an order already accrued. */
  function AccruedWith(w: Wallet, s: Settings, customer: Id, order: Id, eligible: int, commits: bool): (Wallet, Result<int, LoyaltyError>)
  {
    var earned := eligible / ConfigFrom(s).earnPer;
    if earned <= 0 then (w, Ok(0))
    else if Taken(w.txns, order, Earn) then (w, Ok(0))
    else if customer !in w.points then (w, Err(CustomerNotFound))
    else
      (if commits then
         Wallet(w.points[customer := w.points[customer] + earned], w.txns + [Txn(customer, Some(order), Earn, earned)])
       else w,
       Ok(earned))
  }

  class LoyaltyTables {
    var points: map<Id, int>
    var txns: seq<Txn>

    function View(): Wallet
      reads this
    {
      Wallet(points, txns)
    }

    constructor (customers: set<Id>)
      ensures View() == NewWallet(customers)
    {
      points, txns := map c | c in customers :: 0, [];
    }

    method RedeemWith(s: Settings, customer: Id, order: Id, amount: int, commits: bool) returns (r: Result<int, LoyaltyError>)
      modifies this
      ensures (View(), r) == RedeemedWith(old(View()), s, customer, order, amount, commits)
    {
      hide PointsFor;
      var needed := PointsFor(amount, ConfigFrom(s).redeemValue);
      if customer !in points {
        return Err(CustomerNotFound);
      }
      if points[customer] < needed {
        return Err(InsufficientPoints);
      }
      if needed == 0 {
        return Err(ZeroPoints);
      }
      if Taken(txns, order, Redeem) {
        return Err(OrderTaken);
      }
      if commits {
        txns := txns + [Txn(customer, Some(order), Redeem, -needed)];
        points := points[customer := points[customer] - needed];
      }
      return Ok(needed);
    }

    method AccrueWith(s: Settings, customer: Id, order: Id, eligible: int, commits: bool) returns (r: Result<int, LoyaltyError>)
      modifies this
      ensures (View(), r) == AccruedWith(old(View()), s, customer, order, eligible, commits)
    {
      var earned := eligible / ConfigFrom(s).earnPer;
      if earned <= 0 || Taken(txns, order, Earn) {
        return Ok(0);
      }
      if customer !in points {
        return Err(CustomerNotFound);
      }
      if commits {
        txns := txns + [Txn(customer, Some(order), Earn, earned)];
        points := points[customer := points[customer] + earned];
      }
      return Ok(earned);
    }
  }

  function NewWallet(customers: set<Id>): Wallet {
    Wallet(map c | c in customers :: 0, [])
  }

  // ---------------------------------------------------------------- every run keeps the ledger

  datatype Step =
    | RedeemPoints(settings: Settings, customer: Id, order: Id, amount: int, commits: bool)
    | AccruePoints(settings: Settings, customer: Id, order: Id, amount: int, commits: bool)

  function Stepped(w: Wallet, s: Step): Wallet {
    match s
    case RedeemPoints(settings, customer, order, amount, commits) => RedeemedWith(w, settings, customer, order, amount, commits).0
    case AccruePoints(settings, customer, order, amount, commits) => AccruedWith(w, settings, customer, order, amount, commits).0
  }

  function Run(w: Wallet, steps: seq<Step>): Wallet {
    if steps == [] then w else Stepped(Run(w, steps[..|steps| - 1]), steps[|steps| - 1])
  }

  /** No order has two rows of one kind. */
  ghost predicate OncePerKind(txns: seq<Txn>) {
    forall i, j :: 0 <= i < j < |txns| && txns[i].order.Some? ==>
      txns[i].order != txns[j].order || txns[i].kind != txns[j].kind
  }

  /** Every customer's points are the sum of the log and never negative. */
  ghost predicate WalletOk(w: Wallet) {
    && (forall c :: c in w.points ==> w.points[c] == SumOf(w.txns, c) && w.points[c] >= 0)
    && OncePerKind(w.txns)
  }

  lemma NewIsOk(customers: set<Id>)
    ensures WalletOk(NewWallet(customers))
  {
  }

  lemma MoveKeeps(w: Wallet, t: Txn)
    requires WalletOk(w) && t.owner in w.points && w.points[t.owner] + t.amount >= 0
    requires t.order.Some? && !Taken(w.txns, t.order.value, t.kind)
    ensures WalletOk(Wallet(w.points[t.owner := w.points[t.owner] + t.amount], w.txns + [t]))
  {
    hide SumOf;
    var v := Wallet(w.points[t.owner := w.points[t.owner] + t.amount], w.txns + [t]);
    forall c | c in v.points ensures v.points[c] == SumOf(v.txns, c) && v.points[c] >= 0 {
      SumPush(w.txns, t, c);
    }
  }

  lemma StepKeeps(w: Wallet, s: Step)
    requires WalletOk(w)
    ensures WalletOk(Stepped(w, s)) && w.txns <= Stepped(w, s).txns && w.points.Keys == Stepped(w, s).points.Keys
  {
    hide OncePerKind, SumOf, PointsFor, Taken;
    match s
    case RedeemPoints(settings, customer, order, amount, commits) =>
      if Stepped(w, s) != w {
        MoveKeeps(w, Txn(customer, Some(order), Redeem, -PointsFor(amount, ConfigFrom(settings).redeemValue)));
      }
    case AccruePoints(settings, customer, order, eligible, commits) =>
      if Stepped(w, s) != w {
        MoveKeeps(w, Txn(customer, Some(order), Earn, eligible / ConfigFrom(settings).earnPer));
      }
  }

  /** In every reachable state points equal their transactions and are never negative. */
  lemma {:induction false} RunKeeps(w: Wallet, steps: seq<Step>)
    requires WalletOk(w)
    ensures WalletOk(Run(w, steps)) && w.txns <= Run(w, steps).txns && w.points.Keys == Run(w, steps).points.Keys
  {
    hide WalletOk, Stepped;
    if steps != [] {
      RunKeeps(w, steps[..|steps| - 1]);
      StepKeeps(Run(w, steps[..|steps| - 1]), steps[|steps| - 1]);
    }
  }

  /** From an empty log on, a customer's points are what was earned less what was redeemed, and never below zero. */
  lemma {:induction false} NeverOverdrawn(customers: set<Id>, steps: seq<Step>, customer: Id)
    requires customer in customers
    ensures var w := Run(NewWallet(customers), steps);
      customer in w.points && w.points[customer] == SumOf(w.txns, customer) && w.points[customer] >= 0
  {
    hide Run, SumOf;
    NewIsOk(customers);
    RunKeeps(NewWallet(customers), steps);
  }

  /**
   * After a committed redemption or accrual for an order, no second one takes effect: a replayed
   * accrual earns nothing, a replayed redemption fails, whoever the customer is.
   */
  lemma {:induction false} OnceForAnOrder(w: Wallet, s: Step, later: seq<Step>, again: Step)
    requires WalletOk(w) && Stepped(w, s) != w
    requires again.RedeemPoints? == s.RedeemPoints? && again.order == s.order
    ensures var v := Run(Stepped(w, s), later);
      && Stepped(v, again) == v
      && (again.RedeemPoints? ==> RedeemedWith(v, again.settings, again.customer, again.order, again.amount, again.commits).1.Err?)
      && (again.AccruePoints? ==> AccruedWith(v, again.settings, again.customer, again.order, again.amount, again.commits).1 == Ok(0))
  {
    hide Run, WalletOk, PointsFor;
    StepKeeps(w, s);
    RunKeeps(Stepped(w, s), later);
    var first, v := Stepped(w, s), Run(Stepped(w, s), later);
    var i := |first.txns| - 1;
    assert first.txns[i].order == Some(s.order) && first.txns[i].kind == if s.RedeemPoints? then Redeem else Earn;
    assert v.txns[i] == first.txns[i];
  }

  /** Points taken are worth the amount and less than one point more. */
  lemma PointsCoverTheAmount(amount: int, value: int)
    requires value > 0
    ensures amount <= value * PointsFor(amount, value) < amount + value
  {
    var q, r := (-amount) / value, (-amount) % value;
    assert -amount == value * q + r;
    assert value * -q == -(value * q) by { Negate(value, q); }
  }

  lemma Negate(x: int, y: int)
    ensures x * -y == -(x * y)
  {
  }

  /** Points earned are all the whole shares of the eligible spend. */
  lemma EarnedIsWhole(w: Wallet, s: Settings, customer: Id, order: Id, eligible: nat)
    requires AccruedWith(w, s, customer, order, eligible, true).1.Ok?
    ensures var c, earned := ConfigFrom(s), AccruedWith(w, s, customer, order, eligible, true).1.value;
      && 0 <= c.earnPer * earned <= eligible
      && (earned > 0 ==> eligible < c.earnPer * earned + c.earnPer)
  {
    hide Taken;
    var c := ConfigFrom(s);
    assert eligible == c.earnPer * (eligible / c.earnPer) + eligible % c.earnPer;
  }


  // ---------------------------------------------------------------- what each operation does

  /** A setting that is a positive whole number is used; otherwise ten dirhams earn a point and a point is worth five fils. */
  lemma ConfigSays(s: Settings)
    ensures ConfigFrom(s).earnPer == match s.earnPer case None => 1000 case Some(n) => if 1 <= n then n else 1000
    ensures ConfigFrom(s).redeemValue == match s.redeemValue case None => 5 case Some(n) => if 1 <= n then n else 5
  {
  }

  /** Some row of the log is of this kind for this order, whoever the customer. */
  ghost predicate HasRow(txns: seq<Txn>, order: Id, kind: Kind) {
    exists t :: t in txns && t.order == Some(order) && t.kind == kind
  }

  /**
   * The points a redemption takes are the least that are worth the amount. It is refused exactly for an unknown
   * customer, for more points than the customer has, for none at all, and for an order redeemed before.
   */
  lemma RedeemedSays(w: Wallet, s: Settings, customer: Id, order: Id, amount: int, commits: bool, points: int)
    requires var value := ConfigFrom(s).redeemValue; amount <= value * points < amount + value
    ensures var r := RedeemedWith(w, s, customer, order, amount, commits);
      && (r.1 == Err(CustomerNotFound) <==> customer !in w.points)
      && (customer in w.points ==>
            && (r.1 == Err(InsufficientPoints) <==> w.points[customer] < points)
            && (r.1 == Err(ZeroPoints) <==> points == 0 <= w.points[customer])
            && (r.1 == Err(OrderTaken) <==> points != 0 && points <= w.points[customer] && HasRow(w.txns, order, Redeem))
            && (r.1.Ok? <==> points != 0 && points <= w.points[customer] && !HasRow(w.txns, order, Redeem))
            && (r.1.Ok? ==> r.1.value == points)
            && (r.1.Ok? && commits ==>
                  && r.0.points == w.points[customer := w.points[customer] - points]
                  && r.0.txns == w.txns + [Txn(customer, Some(order), Redeem, -points)]))
      && (!r.1.Ok? || !commits ==> r.0 == w)
  {
    var value := ConfigFrom(s).redeemValue;
    PointsCoverTheAmount(amount, value);
    hide PointsFor, ConfigFrom;
    OnlyMultiple(value, points, PointsFor(amount, value), amount);
    TakenIff(w.txns, order, Redeem);
  }

  /** Two multiples in the same half-open stretch of one length are the same. */
  lemma OnlyMultiple(value: int, x: int, y: int, low: int)
    requires value > 0 && low <= value * x < low + value && low <= value * y < low + value
    ensures x == y
  {
    if x < y {
      Apart(value, x, y);
    } else if y < x {
      Apart(value, y, x);
    }
  }

  lemma {:induction false} Apart(value: int, x: int, y: int)
    requires value > 0 && x < y
    ensures value * x + value <= value * y
    decreases y - x
  {
    if x + 1 < y {
      Apart(value, x, y - 1);
    }
    assert value * y == value * (y - 1) + value;
  }

  lemma TakenIff(txns: seq<Txn>, order: Id, kind: Kind)
    ensures Taken(txns, order, kind) <==> HasRow(txns, order, kind)
  {
    if Taken(txns, order, kind) {
      var i :| 0 <= i < |txns| && txns[i].order == Some(order) && txns[i].kind == kind;
      assert txns[i] in txns;
    }
  }

  /** An accrual earns all whole points of the spend, once for an order; below one point it does nothing at all. */
  lemma AccruedSays(w: Wallet, s: Settings, customer: Id, order: Id, eligible: int, commits: bool, points: int)
    requires var per := ConfigFrom(s).earnPer; per * points <= eligible < per * points + per
    ensures var r := AccruedWith(w, s, customer, order, eligible, commits);
      var earns := points >= 1 && !HasRow(w.txns, order, Earn);
      && (!earns ==> r == (w, Ok(0)))
      && (earns && customer !in w.points ==> r == (w, Err(CustomerNotFound)))
      && (earns && customer in w.points ==>
            && r.1 == Ok(points)
            && r.0 == if commits then Wallet(w.points[customer := w.points[customer] + points],
                                             w.txns + [Txn(customer, Some(order), Earn, points)])
                      else w)
  {
    var per := ConfigFrom(s).earnPer;
    WholePoints(eligible, per);
    hide ConfigFrom;
    OnlyMultiple(per, points, eligible / per, eligible - per + 1);
    TakenIff(w.txns, order, Earn);
  }

  lemma WholePoints(eligible: int, per: int)
    requires per > 0
    ensures per * (eligible / per) <= eligible < per * (eligible / per) + per
  {
    assert eligible == per * (eligible / per) + eligible % per;
  }
}
