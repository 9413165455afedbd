/** Half-up rounding of fractions, and what it costs to round the parts of a whole one by one. */
module Rounding {
  /** `Math.round(num / den)`: the nearest integer, halves upwards. */
  function HalfUp(num: int, den: nat): (r: int)
    requires den > 0
    ensures num >= 0 ==> r >= 0
  {
    (2 * num + den) / (2 * den)
  }

  lemma DivideBy(x: int, p: nat, q: int, r: nat)
    requires p > 0 && r < p && x == q * p + r
    ensures x / p == q
  {
    var d := q - x / p;
    assert p * d == x % p - r by { Unfold(x, p, q); }
    Bound(p, d);
  }

  lemma Unfold(x: int, p: nat, q: int)
    requires p > 0
    ensures p * (q - x / p) == q * p - (x - x % p)
  {
  }

  lemma Bound(p: int, d: int)
    requires p > 0
    ensures d >= 1 ==> p * d >= p
    ensures d <= -1 ==> p * d <= -p
  {
  }

  /** The result is within half a unit of the fraction, and exactly half only from above. */
  lemma HalfUpNear(num: int, den: nat)
    requires den > 0
    ensures 2 * num - den < 2 * (den * HalfUp(num, den)) <= 2 * num + den
  {
    Quotient(2 * num + den, 2 * den);
  }

  lemma Quotient(x: int, p: nat)
    requires p > 0
    ensures x - p < p * (x / p) <= x
  {
  }

  /** Nothing else is that near. */
  lemma HalfUpUnique(num: int, den: nat, r: int)
    requires den > 0 && 2 * num - den < 2 * (den * r) <= 2 * num + den
    ensures HalfUp(num, den) == r
  {
    DivideBy(2 * num + den, 2 * den, r, 2 * num + den - 2 * (den * r));
  }

  lemma HalfUpExact(a: int, den: nat)
    requires den > 0
    ensures HalfUp(a * den, den) == a
  {
    HalfUpUnique(a * den, den, a);
  }

  lemma HalfUpMonotone(a: int, b: int, den: nat)
    requires den > 0 && a <= b
    ensures HalfUp(a, den) <= HalfUp(b, den)
  {
    HalfUpNear(a, den);
    HalfUpNear(b, den);
    var d := HalfUp(b, den) - HalfUp(a, den);
    hide HalfUp;
    Spread(den, HalfUp(b, den), HalfUp(a, den));
    Bound(den, d);
  }

  lemma Spread(den: int, x: int, y: int)
    ensures den * (x - y) == den * x - den * y
  {
  }

  /** Rounding a whole number of parts plus a rest smaller than one. */
  lemma HalfUpRest(a: int, den: nat, rest: nat)
    requires den > 0 && rest < den
    ensures HalfUp(a * den + rest, den) == a + (if 2 * rest >= den then 1 else 0)
  {
    if 2 * rest >= den {
      Spread(den, a, -1);
      HalfUpUnique(a * den + rest, den, a + 1);
    } else {
      HalfUpUnique(a * den + rest, den, a);
    }
  }

  // ---------------------------------------------------------------- the parts of a whole

  /** `total` shared over parts of `whole`, each share rounded. */
  function Share(total: int, part: int, whole: nat): int
    requires whole > 0
  {
    HalfUp(total * part, whole)
  }

  function Shares(total: int, parts: seq<nat>, whole: nat): int
    requires whole > 0
  {
    if parts == [] then 0 else Shares(total, parts[..|parts| - 1], whole) + Share(total, parts[|parts| - 1], whole)
  }

  function PartSum(parts: seq<nat>): nat {
    if parts == [] then 0 else PartSum(parts[..|parts| - 1]) + parts[|parts| - 1]
  }

  /** Taking everything gives everything. */
  lemma WholeShare(total: int, whole: nat)
    requires whole > 0
    ensures Share(total, whole, whole) == total
  {
    HalfUpExact(total, whole);
  }

  lemma ShareGrows(less: int, more: int, part: nat, whole: nat)
    requires whole > 0 && less <= more
    ensures Share(less, part, whole) <= Share(more, part, whole)
  {
    Wider(less, more, part);
    HalfUpMonotone(less * part, more * part, whole);
  }

  lemma Wider(less: int, more: int, part: nat)
    requires less <= more
    ensures less * part <= more * part
  {
  }

  /** Twice the distance between scaled shares and the scaled exact amount is at most one whole per part. */
  ghost predicate Near(exact: int, rounded: int, slack: int) {
    2 * exact - slack <= 2 * rounded <= 2 * exact + slack
  }

  /** After any parts, the shares are within half a unit per part of the exact amount. */
  lemma {:induction false} SharesNear(total: int, parts: seq<nat>, whole: nat)
    requires whole > 0
    ensures Near(total * PartSum(parts), whole * Shares(total, parts, whole), |parts| * whole)
  {
    hide Share, Near;
    if parts == [] {
      NoPartsNear(total, whole);
    } else {
      var front, last := parts[..|parts| - 1], parts[|parts| - 1];
      SharesNear(total, front, whole);
      ShareNear(total, last, whole);
      NearAdds(total, PartSum(front), last, whole, Shares(total, front, whole), Share(total, last, whole), |front|);
    }
  }

  lemma {:induction false} NoPartsNear(total: int, whole: nat)
    requires whole > 0
    ensures Near(total * PartSum([]), whole * Shares(total, [], whole), 0 * whole)
  {
  }

  lemma ShareNear(total: int, part: nat, whole: nat)
    requires whole > 0
    ensures Near(total * part, whole * Share(total, part, whole), whole)
  {
    HalfUpNear(total * part, whole);
  }

  lemma NearAdds(t: int, p: int, q: int, w: int, s: int, h: int, k: int)
    requires Near(t * p, w * s, k * w) && Near(t * q, w * h, w)
    ensures Near(t * (p + q), w * (s + h), (k + 1) * w)
  {
    Distribute(t, p, q);
    Distribute(w, s, h);
    Distribute(w, k, 1);
  }

  lemma Distribute(x: int, y: int, z: int)
    ensures x * (y + z) == x * y + x * z
  {
  }

  /** Splitting a whole into k parts and rounding each drifts by at most k/2 units in total. */
  lemma {:induction false} SharesDrift(total: int, parts: seq<nat>, whole: nat)
    requires whole > 0 && PartSum(parts) == whole
    ensures -|parts| <= 2 * (Shares(total, parts, whole) - total) <= |parts|
  {
    SharesNear(total, parts, whole);
    hide Shares;
    Cancel(whole, 2 * (Shares(total, parts, whole) - total), |parts|, total, Shares(total, parts, whole));
  }

  /** Parts that stay within the whole exceed the total by at most half a unit each. */
  lemma {:induction false} SharesWithin(total: nat, parts: seq<nat>, whole: nat)
    requires whole > 0 && PartSum(parts) <= whole
    ensures 2 * (Shares(total, parts, whole) - total) <= |parts|
  {
    SharesNear(total, parts, whole);
    hide Shares;
    Wider(PartSum(parts), whole, total);
    CancelAbove(whole, 2 * (Shares(total, parts, whole) - total), |parts|, total, Shares(total, parts, whole));
  }

  lemma CancelAbove(w: nat, d: int, k: int, total: int, s: int)
    requires w > 0 && d == 2 * (s - total)
    requires 2 * (w * s) <= 2 * (total * w) + k * w
    ensures d <= k
  {
    assert w * d == 2 * (w * s) - 2 * (total * w);
    Bound(w, d - k);
    Spread(w, d, k);
  }

  lemma Cancel(w: nat, d: int, k: int, total: int, s: int)
    requires w > 0 && d == 2 * (s - total)
    requires Near(total * w, w * s, k * w)
    ensures -k <= d <= k
  {
    assert w * d == 2 * (w * s) - 2 * (total * w);
    Bound(w, d - k);
    Bound(w, -d - k);
    Spread(w, d, k);
    Spread(w, -d, k);
  }

  function Units(k: nat): (parts: seq<nat>)
    ensures |parts| == k
  {
    if k == 0 then [] else Units(k - 1) + [1]
  }

  lemma {:induction false} SharesPush(total: int, parts: seq<nat>, part: nat, whole: nat)
    requires whole > 0
    ensures Shares(total, parts + [part], whole) == Shares(total, parts, whole) + Share(total, part, whole)
    ensures PartSum(parts + [part]) == PartSum(parts) + part
  {
    hide Share;
    assert (parts + [part])[..|parts|] == parts;
  }

  lemma {:induction false} UnitShares(total: int, k: nat, whole: nat)
    requires whole > 0
    ensures PartSum(Units(k)) == k && Shares(total, Units(k), whole) == k * Share(total, 1, whole)
  {
    if k > 0 {
      hide Share, Shares, PartSum;
      UnitShares(total, k - 1, whole);
      SharesPush(total, Units(k - 1), 1, whole);
      Distribute(Share(total, 1, whole), k - 1, 1);
    }
  }

  /** No better bound exists: for every even k some split into k parts drifts by exactly k/2. */
  lemma {:induction false} DriftIsReached(half: nat)
    requires half > 0
    ensures var k := 2 * half;
      && |Units(k)| == k && PartSum(Units(k)) == k
      && 2 * (Shares(half, Units(k), k) - half) == k
  {
    UnitShares(half, 2 * half, 2 * half);
    HalfUpUnique(half, 2 * half, 1);
  }
}
