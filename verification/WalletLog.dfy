/** The append-only transaction log behind the three customer wallets. */
module WalletLog {
  import opened Common

  type Id = string

  datatype Kind = Issue | Redeem | Cancel | Earn

  /** A signed movement of one wallet, possibly for an order. */
  datatype Txn = Txn(owner: Id, order: Option<Id>, kind: Kind, amount: int)

  /** What the log adds up to for one wallet. */
  function SumOf(txns: seq<Txn>, owner: Id): int {
    if txns == [] then 0
    else SumOf(txns[..|txns| - 1], owner) + (if txns[|txns| - 1].owner == owner then txns[|txns| - 1].amount else 0)
  }

  predicate IsRedemption(t: Txn, owner: Id, order: Id) {
    t.owner == owner && t.order == Some(order) && t.kind == Redeem
  }

  /** The redemption of a wallet for an order, if there is one. */
  function Prior(txns: seq<Txn>, owner: Id, order: Id): (r: Option<int>)
    ensures r.None? ==> forall i :: 0 <= i < |txns| ==> !IsRedemption(txns[i], owner, order)
    ensures r.Some? ==> exists i :: 0 <= i < |txns| && IsRedemption(txns[i], owner, order) && txns[i].amount == -r.value
  {
    if txns == [] then None
    else if IsRedemption(txns[|txns| - 1], owner, order) then Some(-txns[|txns| - 1].amount)
    else
      var front := txns[..|txns| - 1];
      assert forall i :: 0 <= i < |front| ==> front[i] == txns[i];
      Prior(front, owner, order)
  }

  /** At most one redemption per wallet and order. */
  ghost predicate RedeemedOnce(txns: seq<Txn>) {
    forall i, j, owner, order :: 0 <= i < j < |txns| ==>
      !(IsRedemption(txns[i], owner, order) && IsRedemption(txns[j], owner, order))
  }

  lemma {:induction false} SumPush(txns: seq<Txn>, t: Txn, owner: Id)
    ensures SumOf(txns + [t], owner) == SumOf(txns, owner) + (if t.owner == owner then t.amount else 0)
  {
    assert (txns + [t])[..|txns|] == txns;
  }

  lemma {:induction false} PriorPush(txns: seq<Txn>, t: Txn, owner: Id, order: Id)
    ensures Prior(txns + [t], owner, order) ==
      if IsRedemption(t, owner, order) then Some(-t.amount) else Prior(txns, owner, order)
  {
    assert (txns + [t])[..|txns|] == txns;
  }

  /** Adding a redemption keeps the log free of doubles when there was none for that wallet and order. */
  lemma {:induction false} OncePush(txns: seq<Txn>, t: Txn)
    requires RedeemedOnce(txns)
    requires t.kind == Redeem ==> t.order.Some? && Prior(txns, t.owner, t.order.value).None?
    ensures RedeemedOnce(txns + [t])
  {
    var all := txns + [t];
    forall i, j, owner, order | 0 <= i < j < |all|
      ensures !(IsRedemption(all[i], owner, order) && IsRedemption(all[j], owner, order))
    {
      if j == |txns| && IsRedemption(t, owner, order) {
        assert all[i] == txns[i];
      }
    }
  }

  /** Later log entries never change what an earlier redemption says. */
  lemma {:induction false} PriorStays(txns: seq<Txn>, more: seq<Txn>, owner: Id, order: Id)
    requires RedeemedOnce(txns + more) && Prior(txns, owner, order).Some?
    ensures Prior(txns + more, owner, order) == Prior(txns, owner, order)
  {
    if more == [] {
      assert txns + more == txns;
    } else {
      var front, last := more[..|more| - 1], more[|more| - 1];
      assert txns + more == (txns + front) + [last];
      OncePrefix(txns + front, [last]);
      PriorStays(txns, front, owner, order);
      PriorPush(txns + front, last, owner, order);
      var i :| 0 <= i < |txns| && IsRedemption(txns[i], owner, order);
      assert IsRedemption((txns + more)[i], owner, order) && (txns + more)[|txns + front|] == last;
    }
  }

  lemma OncePrefix(txns: seq<Txn>, more: seq<Txn>)
    requires RedeemedOnce(txns + more)
    ensures RedeemedOnce(txns)
  {
    var all := txns + more;
    forall i, j, owner, order | 0 <= i < j < |txns|
      ensures !(IsRedemption(txns[i], owner, order) && IsRedemption(txns[j], owner, order))
    {
      assert all[i] == txns[i] && all[j] == txns[j];
    }
  }


  /** An earlier redemption is found exactly when some row of the log is of this wallet, for this order, and a redemption. */
  lemma {:induction false} PriorIff(txns: seq<Txn>, owner: Id, order: Id)
    ensures Prior(txns, owner, order).Some? <==>
      exists i :: 0 <= i < |txns| && txns[i].owner == owner && txns[i].order == Some(order) && txns[i].kind == Redeem
  {
    if Prior(txns, owner, order).None? {
      forall i | 0 <= i < |txns| ensures !(txns[i].owner == owner && txns[i].order == Some(order) && txns[i].kind == Redeem) {
        assert !IsRedemption(txns[i], owner, order);
      }
    }
  }
}
