/** Serialized units: lifecycle, quantity of one unit, and what makes an IMEI acceptable. */
module Serialized {
  import opened Digits

  /** One unit, in thousandths. */
  const WHOLE: int := 1000

  datatype UnitState =
    | Inbound | InStock | HeldForOrder | Sold | BackForCheck | OnTheWay | InRepair | Broken | WrittenOff

  /** `UNIT_TRANSITIONS`: the lifecycle a serialized unit may follow. */
  predicate CanTransition(from: UnitState, to: UnitState) {
    match from
    case Inbound => to == InStock || to == Broken
    case InStock => to == HeldForOrder || to == Sold || to == OnTheWay || to == InRepair || to == Broken
    case HeldForOrder => to == Sold || to == InStock
    case Sold => to == BackForCheck
    case BackForCheck => to == InStock || to == InRepair || to == Broken || to == WrittenOff
    case OnTheWay => to == InStock || to == Broken
    case InRepair => to == InStock || to == Broken
    case Broken => to == InRepair || to == WrittenOff
    case WrittenOff => false
  }

  /** The Luhn sum of the first `n` digits: every second digit is doubled, digit sums added. */
  function LuhnSum(imei: string, n: nat): nat
    requires n <= |imei| && AllDigits(imei)
  {
    if n == 0 then 0
    else
      var d := DigitValue(imei[n - 1]);
      LuhnSum(imei, n - 1) + (if n % 2 == 1 then d else if d > 4 then 2 * d - 9 else 2 * d)
  }

  /** `isValidImei`: sixteen digits, or fifteen with a Luhn check digit. */
  predicate ValidImei(imei: string) {
    && AllDigits(imei)
    && (|imei| == 16 || (|imei| == 15 && LuhnSum(imei, 15) % 10 == 0))
  }

  /** What one digit adds to the sum: every second one is doubled, and the digits of the double are added. */
  function Weight(d: nat, doubled: bool): nat {
    if !doubled then d else if d > 4 then 2 * d - 9 else 2 * d
  }

  /** Different digits never weigh the same, so one wrong digit always shows. */
  lemma WeightsDiffer(c: nat, d: nat, doubled: bool)
    requires c <= 9 && d <= 9 && c != d
    ensures Weight(c, doubled) <= 9 && Weight(d, doubled) <= 9 && Weight(c, doubled) != Weight(d, doubled)
  {
  }

  /** The sums of two numbers that differ in one digit differ by what that digit weighs. */
  lemma {:induction false} OneDigitWeighs(imei: string, i: nat, c: char, n: nat)
    requires i < |imei| && n <= |imei| && IsDigit(c) && AllDigits(imei) && AllDigits(imei[i := c])
    ensures LuhnSum(imei[i := c], n) == LuhnSum(imei, n)
      + (if i < n then Weight(DigitValue(c), i % 2 == 1) - Weight(DigitValue(imei[i]), i % 2 == 1) else 0)
  {
    if n > 0 {
      OneDigitWeighs(imei, i, c, n - 1);
    }
    assert imei[i := c][i] == c;
  }

  /** A valid fifteen-digit IMEI with any one digit mistaken is not valid. */
  lemma {:induction false} OneWrongDigitIsFound(imei: string, i: nat, c: char)
    requires |imei| == 15 && i < 15 && ValidImei(imei) && IsDigit(c) && c != imei[i]
    ensures !ValidImei(imei[i := c])
  {
    assert AllDigits(imei[i := c]);
    OneDigitWeighs(imei, i, c, 15);
    WeightsDiffer(DigitValue(imei[i]), DigitValue(c), i % 2 == 1);
    hide LuhnSum, Weight, AllDigits;
    NotATen(LuhnSum(imei, 15), LuhnSum(imei[i := c], 15));
  }

  lemma NotATen(x: int, y: int)
    requires x % 10 == 0 && x != y && -9 <= y - x <= 9
    ensures y % 10 != 0
  {
  }
}
