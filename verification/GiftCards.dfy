/** Gift cards: a balance kept in step with the log, a status, and redemption under the card's row lock. */
module GiftCards {
  import opened Common
  import opened Text
  import opened WalletLog

  datatype Status = Active | Depleted | Cancelled

  datatype Card = Card(id: Id, code: string, balance: int, initial: int, status: Status, expiresAt: Option<int>)

  datatype Wallet = Wallet(cards: seq<Card>, txns: seq<Txn>)

  datatype CardError = BadAmount | CardNotFound | CardNotActive | CardExpired | InsufficientBalance | KeyTaken

  datatype Redeemed = Redeemed(amount: int, remaining: int)

  const EMPTY: Wallet := Wallet([], [])

  function FindCode(cards: seq<Card>, code: string): (r: Option<nat>)
    ensures r.Some? ==> r.value < |cards| && cards[r.value].code == code
  {
    if cards == [] then None
    else if cards[|cards| - 1].code == code then Some(|cards| - 1)
    else FindCode(cards[..|cards| - 1], code)
  }

  function FindId(cards: seq<Card>, id: Id): (r: Option<nat>)
    ensures r.Some? ==> r.value < |cards| && cards[r.value].id == id
  {
    if cards == [] then None
    else if cards[|cards| - 1].id == id then Some(|cards| - 1)
    else FindId(cards[..|cards| - 1], id)
  }

  // ---------------------------------------------------------------- the operations

  /** `issue`; a taken id or code breaks a unique key. */
  function Issued(w: Wallet, id: Id, code: string, amount: int, expiresAt: Option<int>, order: Option<Id>): (Wallet, Result<int, CardError>) {
    if amount <= 0 then (w, Err(BadAmount))
    else if FindId(w.cards, id).Some? || FindCode(w.cards, Upper(code)).Some? then (w, Err(KeyTaken))
    else
      (Wallet(w.cards + [Card(id, Upper(code), amount, amount, Active, expiresAt)],
              w.txns + [Txn(id, order, Issue, amount)]), Ok(amount))
  }

  predicate Expired(c: Card, today: int) {
    c.expiresAt.Some? && c.expiresAt.value < today
  }

  function Debited(c: Card, amount: int): Card {
    c.(balance := c.balance - amount, status := if c.balance - amount == 0 then Depleted else c.status)
  }

  /** `redeemWith` inside a sale whose transaction commits or not. */
  function RedeemedWith(w: Wallet, code: string, order: Id, amount: int, today: int, commits: bool): (Wallet, Result<Redeemed, CardError>) {
    if amount <= 0 then (w, Err(BadAmount))
    else
      match FindCode(w.cards, Upper(code))
      case None => (w, Err(CardNotFound))
      case Some(i) =>
        var c := w.cards[i];
        if Prior(w.txns, c.id, order).Some? then (w, Ok(Redeemed(Prior(w.txns, c.id, order).value, c.balance)))
        else if c.status != Active then (w, Err(CardNotActive))
        else if Expired(c, today) then (w, Err(CardExpired))
        else if c.balance < amount then (w, Err(InsufficientBalance))
        else
          (if commits then Wallet(w.cards[i := Debited(c, amount)], w.txns + [Txn(c.id, Some(order), Redeem, -amount)]) else w,
           Ok(Redeemed(amount, c.balance - amount)))
  }

  /** `cancel`: whatever is left leaves through the log. */
  function CancelledCard(w: Wallet, id: Id): (Wallet, Result<int, CardError>) {
    match FindId(w.cards, id)
    case None => (w, Err(CardNotFound))
    case Some(i) =>
      var c := w.cards[i];
      if c.status != Active then (w, Err(CardNotActive))
      else
        (Wallet(w.cards[i := c.(balance := 0, status := Cancelled)],
                if c.balance > 0 then w.txns + [Txn(id, None, Cancel, -c.balance)] else w.txns), Ok(c.balance))
  }

  class GiftCardTables {
    var cards: seq<Card>
    var txns: seq<Txn>

    function View(): Wallet
      reads this
    {
      Wallet(cards, txns)
    }

    constructor ()
      ensures View() == EMPTY
    {
      cards, txns := [], [];
    }

    method Issue(id: Id, code: string, amount: int, expiresAt: Option<int>, order: Option<Id>) returns (r: Result<int, CardError>)
      modifies this
      ensures (View(), r) == Issued(old(View()), id, code, amount, expiresAt, order)
    {
      if amount <= 0 {
        return Err(BadAmount);
      }
      if FindId(cards, id).Some? || FindCode(cards, Upper(code)).Some? {
        return Err(KeyTaken);
      }
      cards := cards + [Card(id, Upper(code), amount, amount, Active, expiresAt)];
      txns := txns + [Txn(id, order, Kind.Issue, amount)];
      return Ok(amount);
    }

    method RedeemWith(code: string, order: Id, amount: int, today: int, commits: bool) returns (r: Result<Redeemed, CardError>)
      modifies this
      ensures (View(), r) == RedeemedWith(old(View()), code, order, amount, today, commits)
    {
      hide FindCode, Prior, Upper;
      if amount <= 0 {
        return Err(BadAmount);
      }
      var found := FindCode(cards, Upper(code));
      if found.None? {
        return Err(CardNotFound);
      }
      var i := found.value;
      var prior := Prior(txns, cards[i].id, order);
      if prior.Some? {
        return Ok(Redeemed(prior.value, cards[i].balance));
      }
      if cards[i].status != Active {
        return Err(CardNotActive);
      }
      if Expired(cards[i], today) {
        return Err(CardExpired);
      }
      if cards[i].balance < amount {
        return Err(InsufficientBalance);
      }
      var oldCards, oldTxns := cards, txns;
      txns := txns + [Txn(cards[i].id, Some(order), Redeem, -amount)];
      var balance := cards[i].balance - amount;
      cards := cards[i := cards[i].(balance := balance, status := if balance == 0 then Depleted else cards[i].status)];
      if !commits {
        cards, txns := oldCards, oldTxns;
      }
      return Ok(Redeemed(amount, balance));
    }

    method Cancel(id: Id) returns (r: Result<int, CardError>)
      modifies this
      ensures (View(), r) == CancelledCard(old(View()), id)
    {
      var found := FindId(cards, id);
      if found.None? {
        return Err(CardNotFound);
      }
      var i := found.value;
      if cards[i].status != Active {
        return Err(CardNotActive);
      }
      var remaining := cards[i].balance;
      if remaining > 0 {
        txns := txns + [Txn(id, None, Kind.Cancel, -remaining)];
      }
      cards := cards[i := cards[i].(balance := 0, status := Cancelled)];
      return Ok(remaining);
    }
  }

  // ---------------------------------------------------------------- every run keeps the ledger

  datatype Step =
    | IssueCard(id: Id, code: string, amount: int, expiresAt: Option<int>, soldOn: Option<Id>)
    | RedeemCard(code: string, order: Id, amount: int, today: int, commits: bool)
    | CancelCard(id: Id)

  function Stepped(w: Wallet, s: Step): Wallet {
    match s
    case IssueCard(id, code, amount, expiresAt, soldOn) => Issued(w, id, code, amount, expiresAt, soldOn).0
    case RedeemCard(code, order, amount, today, commits) => RedeemedWith(w, code, order, amount, today, commits).0
    case CancelCard(id) => CancelledCard(w, id).0
  }

  function Run(w: Wallet, steps: seq<Step>): Wallet {
    if steps == [] then w else Stepped(Run(w, steps[..|steps| - 1]), steps[|steps| - 1])
  }

  /** What a card has paid for. */
  function SpentOf(txns: seq<Txn>, id: Id): int {
    if txns == [] then 0
    else
      var t := txns[|txns| - 1];
      SpentOf(txns[..|txns| - 1], id) + (if t.owner == id && t.kind == Redeem then -t.amount else 0)
  }

  lemma {:induction false} SpentPush(txns: seq<Txn>, t: Txn, id: Id)
    ensures SpentOf(txns + [t], id) == SpentOf(txns, id) + (if t.owner == id && t.kind == Redeem then -t.amount else 0)
  {
    assert (txns + [t])[..|txns|] == txns;
  }

  /**
   * The balance is the sum of the log and never negative, active means exactly a positive balance,
   * and what was spent is what is missing from the initial amount unless the card was cancelled.
   */
  ghost predicate CardOk(c: Card, txns: seq<Txn>) {
    && c.balance == SumOf(txns, c.id) && 0 <= c.balance
    && (c.status == Active <==> c.balance > 0)
    && c.balance + SpentOf(txns, c.id) <= c.initial
    && (c.status != Cancelled ==> c.balance + SpentOf(txns, c.id) == c.initial)
  }

  ghost predicate KeysDiffer(cards: seq<Card>) {
    forall i, j :: 0 <= i < j < |cards| ==> cards[i].id != cards[j].id && cards[i].code != cards[j].code
  }

  ghost predicate OwnersKnown(w: Wallet) {
    forall i :: 0 <= i < |w.txns| ==> FindId(w.cards, w.txns[i].owner).Some?
  }

  ghost predicate WalletOk(w: Wallet) {
    && (forall i :: 0 <= i < |w.cards| ==> CardOk(w.cards[i], w.txns))
    && KeysDiffer(w.cards) && OwnersKnown(w) && RedeemedOnce(w.txns)
  }

  lemma {:induction false} FindIdNone(cards: seq<Card>, id: Id)
    ensures FindId(cards, id).None? <==> forall i :: 0 <= i < |cards| ==> cards[i].id != id
  {
    if cards != [] {
      var front := cards[..|cards| - 1];
      FindIdNone(front, id);
      assert forall i :: 0 <= i < |front| ==> front[i] == cards[i];
    }
  }

  lemma {:induction false} FindCodeNone(cards: seq<Card>, code: string)
    ensures FindCode(cards, code).None? <==> forall i :: 0 <= i < |cards| ==> cards[i].code != code
  {
    if cards != [] {
      var front := cards[..|cards| - 1];
      FindCodeNone(front, code);
      assert forall i :: 0 <= i < |front| ==> front[i] == cards[i];
    }
  }

  /** A new transaction leaves the other cards' ledgers alone. */
  lemma OthersKeep(c: Card, txns: seq<Txn>, t: Txn)
    requires CardOk(c, txns) && t.owner != c.id
    ensures CardOk(c, txns + [t])
  {
    SumPush(txns, t, c.id);
    SpentPush(txns, t, c.id);
  }

  lemma {:induction false} NobodysSum(w: Wallet, id: Id)
    requires OwnersKnown(w) && FindId(w.cards, id).None?
    ensures SumOf(w.txns, id) == 0 && SpentOf(w.txns, id) == 0
  {
    NoTxns(w.txns, id);
  }

  lemma {:induction false} NoTxns(txns: seq<Txn>, id: Id)
    requires forall i :: 0 <= i < |txns| ==> txns[i].owner != id
    ensures SumOf(txns, id) == 0 && SpentOf(txns, id) == 0
  {
    if txns != [] {
      NoTxns(txns[..|txns| - 1], id);
    }
  }

  lemma IssueKeeps(w: Wallet, id: Id, code: string, amount: int, expiresAt: Option<int>, order: Option<Id>)
    requires WalletOk(w)
    ensures WalletOk(Issued(w, id, code, amount, expiresAt, order).0)
  {
    hide Upper, SumOf, SpentOf, RedeemedOnce, FindId, FindCode;
    var r := Issued(w, id, code, amount, expiresAt, order);
    if r.1.Ok? {
      var t := Txn(id, order, Issue, amount);
      FindIdNone(w.cards, id);
      FindCodeNone(w.cards, Upper(code));
      NobodysSum(w, id);
      SumPush(w.txns, t, id);
      SpentPush(w.txns, t, id);
      OncePush(w.txns, t);
      forall i | 0 <= i < |r.0.cards| ensures CardOk(r.0.cards[i], r.0.txns) {
        if i < |w.cards| {
          OthersKeep(w.cards[i], w.txns, t);
        }
      }
      assert r.0.cards[|w.cards|].id == t.owner;
      OwnersStay(w, r.0.cards, t);
    }
  }

  /** The log keeps pointing at cards when cards are added or keep their ids. */
  lemma OwnersStay(w: Wallet, cards: seq<Card>, t: Txn)
    requires OwnersKnown(w) && |w.cards| <= |cards|
    requires forall i :: 0 <= i < |w.cards| ==> cards[i].id == w.cards[i].id
    requires exists i :: 0 <= i < |cards| && cards[i].id == t.owner
    ensures OwnersKnown(Wallet(cards, w.txns + [t]))
  {
    hide FindId;
    var all := w.txns + [t];
    forall i | 0 <= i < |all| ensures FindId(cards, all[i].owner).Some? {
      FindIdNone(cards, all[i].owner);
      if i < |w.txns| {
        FindIdNone(w.cards, w.txns[i].owner);
        var k :| 0 <= k < |w.cards| && w.cards[k].id == w.txns[i].owner;
        assert cards[k].id == all[i].owner;
      }
    }
  }

  /** Taking an amount from one card by one transaction. */
  lemma DebitKeeps(w: Wallet, i: nat, t: Txn, c: Card)
    requires WalletOk(w) && i < |w.cards| && t.owner == w.cards[i].id
    requires c.id == w.cards[i].id && c.code == w.cards[i].code && CardOk(c, w.txns + [t])
    requires t.kind == Redeem ==> t.order.Some? && Prior(w.txns, t.owner, t.order.value).None?
    ensures WalletOk(Wallet(w.cards[i := c], w.txns + [t]))
  {
    hide SumOf, SpentOf, RedeemedOnce, FindId, Prior;
    OncePush(w.txns, t);
    var cards := w.cards[i := c];
    forall k | 0 <= k < |cards| ensures CardOk(cards[k], w.txns + [t]) {
      if k != i {
        OthersKeep(w.cards[k], w.txns, t);
      }
    }
    assert cards[i].id == t.owner;
    OwnersStay(w, cards, t);
  }

  lemma RedeemKeeps(w: Wallet, code: string, order: Id, amount: int, today: int, commits: bool)
    requires WalletOk(w)
    ensures WalletOk(RedeemedWith(w, code, order, amount, today, commits).0)
  {
    hide Upper, SumOf, SpentOf, RedeemedOnce, FindId, FindCode, Prior, KeysDiffer, OwnersKnown;
    var r := RedeemedWith(w, code, order, amount, today, commits);
    if r.0 != w {
      var i := FindCode(w.cards, Upper(code)).value;
      var t := Txn(w.cards[i].id, Some(order), Redeem, -amount);
      SumPush(w.txns, t, w.cards[i].id);
      SpentPush(w.txns, t, w.cards[i].id);
      DebitKeeps(w, i, t, Debited(w.cards[i], amount));
    }
  }

  lemma CancelKeeps(w: Wallet, id: Id)
    requires WalletOk(w)
    ensures WalletOk(CancelledCard(w, id).0)
  {
    hide SumOf, SpentOf, RedeemedOnce, FindId, Prior, KeysDiffer, OwnersKnown;
    var r := CancelledCard(w, id);
    if r.1.Ok? {
      var i := FindId(w.cards, id).value;
      assert CardOk(w.cards[i], w.txns);
      var t := Txn(id, None, Cancel, -w.cards[i].balance);
      SumPush(w.txns, t, id);
      SpentPush(w.txns, t, id);
      DebitKeeps(w, i, t, w.cards[i].(balance := 0, status := Cancelled));
    }
  }

  lemma StepKeeps(w: Wallet, s: Step)
    requires WalletOk(w)
    ensures WalletOk(Stepped(w, s))
  {
    hide WalletOk, Issued, RedeemedWith, CancelledCard;
    match s
    case IssueCard(id, code, amount, expiresAt, soldOn) => IssueKeeps(w, id, code, amount, expiresAt, soldOn);
    case RedeemCard(code, order, amount, today, commits) => RedeemKeeps(w, code, order, amount, today, commits);
    case CancelCard(id) => CancelKeeps(w, id);
  }

  /** In every reachable state the balances are their ledgers, non-negative, and active exactly when positive. */
  lemma {:induction false} RunKeeps(w: Wallet, steps: seq<Step>)
    requires WalletOk(w)
    ensures WalletOk(Run(w, steps))
  {
    hide WalletOk, Stepped;
    if steps != [] {
      RunKeeps(w, steps[..|steps| - 1]);
      StepKeeps(Run(w, steps[..|steps| - 1]), steps[|steps| - 1]);
    }
  }

  lemma EmptyIsOk()
    ensures WalletOk(EMPTY)
  {
  }

  /** A card never pays for more than it was issued with. */
  lemma {:induction false} NeverOverspent(steps: seq<Step>, i: nat)
    requires i < |Run(EMPTY, steps).cards|
    ensures var w := Run(EMPTY, steps);
      && w.cards[i].balance == SumOf(w.txns, w.cards[i].id)
      && 0 <= w.cards[i].balance <= w.cards[i].initial - SpentOf(w.txns, w.cards[i].id)
      && (w.cards[i].status == Active <==> w.cards[i].balance > 0)
  {
    hide Run;
    EmptyIsOk();
    RunKeeps(EMPTY, steps);
    assert CardOk(Run(EMPTY, steps).cards[i], Run(EMPTY, steps).txns);
  }

  // ---------------------------------------------------------------- redeeming the same order again

  /** Cards keep their place, id and code, and the log only grows. */
  ghost predicate Grown(w: Wallet, v: Wallet) {
    && |w.cards| <= |v.cards| && w.txns <= v.txns
    && forall i :: 0 <= i < |w.cards| ==> v.cards[i].id == w.cards[i].id && v.cards[i].code == w.cards[i].code
  }

  lemma StepGrows(w: Wallet, s: Step)
    ensures Grown(w, Stepped(w, s))
  {
    hide Upper, FindCode, FindId, Prior;
  }

  lemma {:induction false} RunGrows(w: Wallet, steps: seq<Step>)
    ensures Grown(w, Run(w, steps))
  {
    hide Stepped;
    if steps != [] {
      RunGrows(w, steps[..|steps| - 1]);
      StepGrows(Run(w, steps[..|steps| - 1]), steps[|steps| - 1]);
    }
  }

  lemma {:induction false} FindCodeAt(cards: seq<Card>, i: nat)
    requires KeysDiffer(cards) && i < |cards|
    ensures FindCode(cards, cards[i].code) == Some(i)
  {
    if i < |cards| - 1 {
      FindCodeAt(cards[..|cards| - 1], i);
    }
  }

  /**
   * A redemption that committed is final for its order: whatever happens to the card afterwards,
   * replaying it with any amount on any day returns the first amount and changes nothing.
   */
  lemma {:induction false} RedeemedOncePerOrder(steps: seq<Step>, code: string, order: Id, amount: int, today: int,
                                                later: seq<Step>, again: int, day: int, commits: bool)
    requires RedeemedWith(Run(EMPTY, steps), code, order, amount, today, true).1.Ok? && again > 0
    ensures var first := RedeemedWith(Run(EMPTY, steps), code, order, amount, today, true);
      var w := Run(first.0, later);
      && RedeemedWith(w, code, order, again, day, commits).0 == w
      && RedeemedWith(w, code, order, again, day, commits).1.Ok?
      && RedeemedWith(w, code, order, again, day, commits).1.value.amount == first.1.value.amount
  {
    hide Run, Upper, FindCode, Prior, CardOk, OwnersKnown, RedeemedOnce;
    var start := Run(EMPTY, steps);
    EmptyIsOk();
    RunKeeps(EMPTY, steps);
    RedeemKeeps(start, code, order, amount, today, true);
    var first := RedeemedWith(start, code, order, amount, today, true);
    RunKeeps(first.0, later);
    RunGrows(first.0, later);
    var w := Run(first.0, later);
    var i := FindCode(start.cards, Upper(code)).value;
    var id := start.cards[i].id;
    if Prior(start.txns, id, order).None? {
      PriorPush(start.txns, Txn(id, Some(order), Redeem, -amount), id, order);
    }
    assert Prior(first.0.txns, id, order) == Some(first.1.value.amount);
    assert w.txns == first.0.txns + w.txns[|first.0.txns|..];
    PriorStays(first.0.txns, w.txns[|first.0.txns|..], id, order);
    FindCodeAt(w.cards, i);
    assert w.cards[i].code == Upper(code) && w.cards[i].id == id;
  }


  // ---------------------------------------------------------------- what each operation does

  /** A card is issued exactly for a positive amount under an unused id and code; it starts active with that balance. */
  lemma IssuedSays(w: Wallet, id: Id, code: string, amount: int, expiresAt: Option<int>, order: Option<Id>)
    ensures var r := Issued(w, id, code, amount, expiresAt, order);
      var unused := forall i :: 0 <= i < |w.cards| ==> w.cards[i].id != id && w.cards[i].code != Upper(code);
      && (amount <= 0 ==> r == (w, Err(BadAmount)))
      && (amount > 0 && !unused ==> r == (w, Err(KeyTaken)))
      && (amount > 0 && unused ==>
            && r.1 == Ok(amount)
            && r.0.cards == w.cards + [Card(id, Upper(code), amount, amount, Active, expiresAt)]
            && r.0.txns == w.txns + [Txn(id, order, Issue, amount)])
  {
    hide Upper, FindId, FindCode;
    FindIdNone(w.cards, id);
    FindCodeNone(w.cards, Upper(code));
  }

  /** No card without its code; no amount that is not positive. */
  lemma RedeemRefusalSays(w: Wallet, code: string, order: Id, amount: int, today: int, commits: bool)
    ensures var r := RedeemedWith(w, code, order, amount, today, commits);
      && (r.1.Err? ==> r.0 == w)
      && (r.1 == Err(BadAmount) <==> amount <= 0)
      && (r.1 == Err(CardNotFound) <==> amount > 0 && forall i :: 0 <= i < |w.cards| ==> w.cards[i].code != Upper(code))
  {
    hide Upper, FindCode, Prior;
    FindCodeNone(w.cards, Upper(code));
  }

  ghost predicate Untouched(txns: seq<Txn>, id: Id, order: Id) {
    forall i :: 0 <= i < |txns| ==> !(txns[i].owner == id && txns[i].order == Some(order) && txns[i].kind == Redeem)
  }

  /**
   * A first redemption on a card for an order: only an active card that did not expire before today
   * pays, and only what it holds. It pays exactly the amount, and nothing else changes.
   */
  lemma RedeemedSays(w: Wallet, i: nat, code: string, order: Id, amount: int, today: int, commits: bool)
    requires KeysDiffer(w.cards) && i < |w.cards| && w.cards[i].code == Upper(code) && amount > 0
    requires Untouched(w.txns, w.cards[i].id, order)
    ensures var c, r := w.cards[i], RedeemedWith(w, code, order, amount, today, commits);
      && (r.1 == Err(CardNotActive) <==> c.status in {Depleted, Cancelled})
      && (r.1 == Err(CardExpired) <==> c.status == Active && c.expiresAt.Some? && c.expiresAt.value < today)
      && (r.1 == Err(InsufficientBalance) <==>
            c.status == Active && (c.expiresAt == None || today <= c.expiresAt.value) && c.balance < amount)
      && (r.1.Ok? <==> c.status == Active && (c.expiresAt == None || today <= c.expiresAt.value) && amount <= c.balance)
      && (r.1.Ok? ==> r.1.value == Redeemed(amount, c.balance - amount))
      && (r.1.Ok? && commits ==>
            && r.0.txns == w.txns + [Txn(c.id, Some(order), Redeem, -amount)]
            && r.0.cards == w.cards[i := Card(c.id, c.code, c.balance - amount, c.initial,
                                              if c.balance == amount then Depleted else Active, c.expiresAt)])
      && (!r.1.Ok? || !commits ==> r.0 == w)
  {
    hide Upper, FindCode, Prior, KeysDiffer;
    FindCodeAt(w.cards, i);
    PriorIff(w.txns, w.cards[i].id, order);
  }

  /** Only an active card is cancelled; exactly what it held leaves through the log. */
  lemma CancelSays(w: Wallet, i: nat)
    requires KeysDiffer(w.cards) && i < |w.cards|
    ensures var c, r := w.cards[i], CancelledCard(w, w.cards[i].id);
      && (c.status != Active ==> r == (w, Err(CardNotActive)))
      && (c.status == Active ==>
            && r.1 == Ok(c.balance)
            && r.0.cards == w.cards[i := Card(c.id, c.code, 0, c.initial, Cancelled, c.expiresAt)]
            && r.0.txns == w.txns + (if c.balance > 0 then [Txn(c.id, None, Cancel, -c.balance)] else []))
  {
    hide FindId, KeysDiffer;
    FindIdAt(w.cards, i);
    assert w.txns + [] == w.txns;
  }

  lemma {:induction false} FindIdAt(cards: seq<Card>, i: nat)
    requires KeysDiffer(cards) && i < |cards|
    ensures FindId(cards, cards[i].id) == Some(i)
  {
    if i < |cards| - 1 {
      FindIdAt(cards[..|cards| - 1], i);
    }
  }

  lemma UnknownIsNotCancelled(w: Wallet, id: Id)
    ensures CancelledCard(w, id) == (w, Err(CardNotFound)) <==> forall i :: 0 <= i < |w.cards| ==> w.cards[i].id != id
  {
    hide FindId;
    FindIdNone(w.cards, id);
  }
}
