/** Store credit: one account per customer. The look-up of an earlier redemption is not under the account's lock. */
module StoreCredit {
  import opened Common
  import opened WalletLog

  datatype Wallet = Wallet(customers: set<Id>, accounts: map<Id, int>, txns: seq<Txn>)

  datatype CreditError = BadAmount | CustomerNotFound | InsufficientBalance | AlreadyRedeemed

  datatype Redeemed = Redeemed(amount: int, remaining: int)

  function BalanceOf(w: Wallet, customer: Id): int {
    if customer in w.accounts then w.accounts[customer] else 0
  }

  /** `issue`: upsert the account, then the log. */
  function Issued(w: Wallet, customer: Id, amount: int): (Wallet, Result<int, CreditError>) {
    if amount <= 0 then (w, Err(BadAmount))
    else if customer !in w.customers then (w, Err(CustomerNotFound))
    else
      var balance := BalanceOf(w, customer) + amount;
      (w.(accounts := w.accounts[customer := balance], txns := w.txns + [Txn(customer, None, Issue, amount)]), Ok(balance))
  }

  /**
   * `redeemWith`: the look-up saw only the first `seen` log rows; the lock, the balance check, the
   * update and the insert with its unique key come later. A key conflict rolls everything back.
   */
  function RedeemedWith(w: Wallet, seen: nat, customer: Id, order: Id, amount: int, commits: bool): (Wallet, Result<Redeemed, CreditError>)
    requires seen <= |w.txns|
  {
    if amount <= 0 then (w, Err(BadAmount))
    else if Prior(w.txns[..seen], customer, order).Some? then
      (w, Ok(Redeemed(Prior(w.txns[..seen], customer, order).value, BalanceOf(w, customer))))
    else if BalanceOf(w, customer) < amount then (w, Err(InsufficientBalance))
    else if Prior(w.txns, customer, order).Some? then (w, Err(AlreadyRedeemed))
    else
      (if commits then
         w.(accounts := w.accounts[customer := BalanceOf(w, customer) - amount],
            txns := w.txns + [Txn(customer, Some(order), Redeem, -amount)])
       else w,
       Ok(Redeemed(amount, BalanceOf(w, customer) - amount)))
  }

  class StoreCreditTables {
    const customers: set<Id>
    var accounts: map<Id, int>
    var txns: seq<Txn>

    function View(): Wallet
      reads this
    {
      Wallet(customers, accounts, txns)
    }

    constructor (customers: set<Id>)
      ensures View() == Wallet(customers, map[], [])
    {
      this.customers := customers;
      accounts, txns := map[], [];
    }

    method Issue(customer: Id, amount: int) returns (r: Result<int, CreditError>)
      modifies this
      ensures (View(), r) == Issued(old(View()), customer, amount)
    {
      if amount <= 0 {
        return Err(BadAmount);
      }
      if customer !in customers {
        return Err(CustomerNotFound);
      }
      accounts := accounts[customer := amount + if customer in accounts then accounts[customer] else 0];
      txns := txns + [Txn(customer, None, Kind.Issue, amount)];
      return Ok(accounts[customer]);
    }

    /**
     * The first query of `redeemWith`: what an earlier redemption for the order took, if one has
     * committed by now. No lock keeps the answer true afterwards.
     */
    method LookUp(customer: Id, order: Id) returns (prior: Option<int>, seen: nat)
      ensures seen == |txns| && prior == Prior(txns[..seen], customer, order)
      ensures prior.None? ==> forall i :: 0 <= i < |txns| ==> !IsRedemption(txns[i], customer, order)
      ensures prior.Some? ==> exists i :: 0 <= i < |txns| && IsRedemption(txns[i], customer, order) && txns[i].amount == -prior.value
    {
      seen := |txns|;
      assert txns[..seen] == txns;
      prior := Prior(txns, customer, order);
    }

    /** The rest of `redeemWith`, possibly after other transactions committed. */
    method RedeemAfter(prior: Option<int>, ghost seen: nat, customer: Id, order: Id, amount: int, commits: bool)
      returns (r: Result<Redeemed, CreditError>)
      requires seen <= |txns| && prior == Prior(txns[..seen], customer, order)
      modifies this
      ensures (View(), r) == RedeemedWith(old(View()), seen, customer, order, amount, commits)
    {
      hide Prior;
      if amount <= 0 {
        return Err(BadAmount);
      }
      var balance := if customer in accounts then accounts[customer] else 0;
      if prior.Some? {
        return Ok(Redeemed(prior.value, balance));
      }
      if balance < amount {
        return Err(InsufficientBalance);
      }
      var oldAccounts, oldTxns := accounts, txns;
      accounts := accounts[customer := balance - amount];
      if Prior(txns, customer, order).Some? {
        accounts := oldAccounts;
        return Err(AlreadyRedeemed);
      }
      txns := txns + [Txn(customer, Some(order), Redeem, -amount)];
      if !commits {
        accounts, txns := oldAccounts, oldTxns;
      }
      return Ok(Redeemed(amount, balance - amount));
    }
  }

  // ---------------------------------------------------------------- every run keeps the ledger

  datatype Step =
    | IssueCredit(customer: Id, amount: int)
    | RedeemCredit(seen: nat, customer: Id, order: Id, amount: int, commits: bool)

  /** Any interleaving: a redemption may act on a look-up from any earlier moment. */
  function Stepped(w: Wallet, s: Step): Wallet {
    match s
    case IssueCredit(customer, amount) => Issued(w, customer, amount).0
    case RedeemCredit(seen, customer, order, amount, commits) =>
      RedeemedWith(w, if seen <= |w.txns| then seen else |w.txns|, customer, order, amount, commits).0
  }

  function Run(w: Wallet, steps: seq<Step>): Wallet {
    if steps == [] then w else Stepped(Run(w, steps[..|steps| - 1]), steps[|steps| - 1])
  }

  /** Every balance is the sum of its log, none is negative, and no order was redeemed twice. */
  ghost predicate WalletOk(w: Wallet) {
    && (forall c :: BalanceOf(w, c) == SumOf(w.txns, c))
    && (forall c :: BalanceOf(w, c) >= 0)
    && RedeemedOnce(w.txns)
  }

  lemma NewIsOk(customers: set<Id>)
    ensures WalletOk(Wallet(customers, map[], []))
  {
  }

  lemma MoveKeeps(w: Wallet, t: Txn)
    requires WalletOk(w) && BalanceOf(w, t.owner) + t.amount >= 0
    requires t.kind == Redeem ==> t.order.Some? && Prior(w.txns, t.owner, t.order.value).None?
    ensures WalletOk(w.(accounts := w.accounts[t.owner := BalanceOf(w, t.owner) + t.amount], txns := w.txns + [t]))
  {
    hide SumOf, RedeemedOnce, Prior;
    var v := w.(accounts := w.accounts[t.owner := BalanceOf(w, t.owner) + t.amount], txns := w.txns + [t]);
    OncePush(w.txns, t);
    forall c ensures BalanceOf(v, c) == SumOf(v.txns, c) && BalanceOf(v, c) >= 0 {
      SumPush(w.txns, t, c);
      assert BalanceOf(w, c) == SumOf(w.txns, c) && BalanceOf(w, c) >= 0;
    }
  }

  lemma StepKeeps(w: Wallet, s: Step)
    requires WalletOk(w)
    ensures WalletOk(Stepped(w, s)) && w.txns <= Stepped(w, s).txns
  {
    hide WalletOk, Prior;
    match s
    case IssueCredit(customer, amount) =>
      if Issued(w, customer, amount).1.Ok? {
        NeverNegative(w, customer);
        MoveKeeps(w, Txn(customer, None, Issue, amount));
      }
    case RedeemCredit(seen, customer, order, amount, commits) =>
      if Stepped(w, s) != w {
        MoveKeeps(w, Txn(customer, Some(order), Redeem, -amount));
      }
  }

  lemma NeverNegative(w: Wallet, customer: Id)
    requires WalletOk(w)
    ensures BalanceOf(w, customer) >= 0
  {
  }

  /** Under every interleaving of look-ups and redemptions the ledger is kept. */
  lemma {:induction false} RunKeeps(w: Wallet, steps: seq<Step>)
    requires WalletOk(w)
    ensures WalletOk(Run(w, steps)) && w.txns <= Run(w, steps).txns
  {
    hide WalletOk, Stepped;
    if steps != [] {
      RunKeeps(w, steps[..|steps| - 1]);
      StepKeeps(Run(w, steps[..|steps| - 1]), steps[|steps| - 1]);
    }
  }

  /** From the first issue on, a balance is what was issued less what was redeemed, and never below zero. */
  lemma {:induction false} NeverOverdrawn(customers: set<Id>, steps: seq<Step>, customer: Id)
    ensures var w := Run(Wallet(customers, map[], []), steps);
      BalanceOf(w, customer) == SumOf(w.txns, customer) && BalanceOf(w, customer) >= 0
  {
    hide Run, SumOf, RedeemedOnce;
    NewIsOk(customers);
    RunKeeps(Wallet(customers, map[], []), steps);
  }

  /**
   * Once a redemption committed, the same order never debits again: a look-up that sees it returns
   * its amount, one that does not is refused, and neither changes anything.
   */
  lemma {:induction false} RedeemedOncePerOrder(w: Wallet, seen: nat, customer: Id, order: Id, amount: int,
                                                later: seq<Step>, again: int, sight: nat, commits: bool)
    requires WalletOk(w) && seen <= |w.txns|
    requires RedeemedWith(w, seen, customer, order, amount, true).1.Ok? && again > 0
    requires sight <= |Run(RedeemedWith(w, seen, customer, order, amount, true).0, later).txns|
    ensures var first := RedeemedWith(w, seen, customer, order, amount, true);
      var v := Run(first.0, later);
      var replay := RedeemedWith(v, sight, customer, order, again, commits);
      && replay.0 == v
      && (sight >= |first.0.txns| ==> replay.1 == Ok(Redeemed(first.1.value.amount, BalanceOf(v, customer))))
      && (replay.1.Ok? ==> replay.1.value.amount == first.1.value.amount)
  {
    hide Run, Prior, RedeemedOnce, SumOf;
    var first := RedeemedWith(w, seen, customer, order, amount, true);
    StepKeeps(w, RedeemCredit(seen, customer, order, amount, true));
    RunKeeps(first.0, later);
    var v := Run(first.0, later);
    FirstIsLogged(w, seen, customer, order, amount);
    SeesFirst(first.0.txns, v.txns, |v.txns|, customer, order);
    assert v.txns[..|v.txns|] == v.txns;
    if sight >= |first.0.txns| {
      SeesFirst(first.0.txns, v.txns, sight, customer, order);
    } else if Prior(v.txns[..sight], customer, order).Some? {
      assert v.txns == v.txns[..sight] + v.txns[sight..];
      PriorStays(v.txns[..sight], v.txns[sight..], customer, order);
    }
  }

  lemma {:induction false} FirstIsLogged(w: Wallet, seen: nat, customer: Id, order: Id, amount: int)
    requires WalletOk(w) && seen <= |w.txns| && RedeemedWith(w, seen, customer, order, amount, true).1.Ok?
    ensures var first := RedeemedWith(w, seen, customer, order, amount, true);
      Prior(first.0.txns, customer, order) == Some(first.1.value.amount)
  {
    hide RedeemedOnce, Prior, SumOf;
    if Prior(w.txns[..seen], customer, order).Some? {
      assert w.txns == w.txns[..seen] + w.txns[seen..];
      PriorStays(w.txns[..seen], w.txns[seen..], customer, order);
    } else {
      PriorPush(w.txns, Txn(customer, Some(order), Redeem, -amount), customer, order);
    }
  }

  lemma {:induction false} SeesFirst(early: seq<Txn>, all: seq<Txn>, sight: nat, customer: Id, order: Id)
    requires early <= all && |early| <= sight <= |all| && RedeemedOnce(all) && Prior(early, customer, order).Some?
    ensures Prior(all[..sight], customer, order) == Prior(early, customer, order)
  {
    hide RedeemedOnce, Prior;
    assert all == all[..sight] + all[sight..];
    OncePrefix(all[..sight], all[sight..]);
    assert all[..sight] == early + all[|early|..sight];
    PriorStays(early, all[|early|..sight], customer, order);
  }


  // ---------------------------------------------------------------- what each operation does

  ghost predicate OthersStay(w: Wallet, after: Wallet, customer: Id) {
    after.customers == w.customers && forall c :: c != customer ==> BalanceOf(after, c) == BalanceOf(w, c)
  }

  /** Credit is issued exactly for a positive amount to a known customer, and adds that amount to the balance. */
  lemma IssuedSays(w: Wallet, customer: Id, amount: int)
    ensures var r := Issued(w, customer, amount);
      && (amount <= 0 ==> r == (w, Err(BadAmount)))
      && (amount > 0 && customer !in w.customers ==> r == (w, Err(CustomerNotFound)))
      && (amount > 0 && customer in w.customers ==>
            && r.1 == Ok(BalanceOf(r.0, customer))
            && BalanceOf(r.0, customer) == BalanceOf(w, customer) + amount
            && OthersStay(w, r.0, customer)
            && r.0.txns == w.txns + [Txn(customer, None, Issue, amount)])
  {
  }

  /** Some of these rows is a redemption of this customer for this order. */
  ghost predicate Spent(txns: seq<Txn>, customer: Id, order: Id) {
    exists i :: 0 <= i < |txns| && txns[i].owner == customer && txns[i].order == Some(order) && txns[i].kind == Redeem
  }

  /**
   * A redemption whose look-up saw none for its order pays exactly the amount if the balance covers it and
   * none has committed since; otherwise it says which of the two failed, the balance first.
   */
  lemma RedeemedSays(w: Wallet, seen: nat, customer: Id, order: Id, amount: int, commits: bool)
    requires seen <= |w.txns| && !Spent(w.txns[..seen], customer, order)
    ensures var r := RedeemedWith(w, seen, customer, order, amount, commits);
      && (r.1 == Err(BadAmount) <==> amount <= 0)
      && (r.1 == Err(InsufficientBalance) <==> 0 < amount && BalanceOf(w, customer) < amount)
      && (r.1 == Err(AlreadyRedeemed) <==> 0 < amount <= BalanceOf(w, customer) && Spent(w.txns, customer, order))
      && (r.1.Ok? <==> 0 < amount <= BalanceOf(w, customer) && !Spent(w.txns, customer, order))
      && (r.1.Ok? ==> r.1.value == Redeemed(amount, BalanceOf(w, customer) - amount))
      && (r.1.Ok? && commits ==>
            && BalanceOf(r.0, customer) == BalanceOf(w, customer) - amount
            && OthersStay(w, r.0, customer)
            && r.0.txns == w.txns + [Txn(customer, Some(order), Redeem, -amount)])
      && (!r.1.Ok? || !commits ==> r.0 == w)
  {
    hide Prior;
    PriorIff(w.txns, customer, order);
    PriorIff(w.txns[..seen], customer, order);
  }
}
