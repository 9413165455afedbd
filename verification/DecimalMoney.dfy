/** Printing money in minor units as decimal text, and the marketplace and admin parsers that read it. */
module DecimalMoney {
  import opened Common
  import opened Digits
  import opened Rounding
  import opened Text

  // ---------------------------------------------------------------- printing

  /** `digits.padStart(n, "0")`. */
  function PadStart(digits: string, n: nat): (s: string)
    ensures |s| >= n && |s| >= |digits|
  {
    if |digits| >= n then digits else Zeros(n - |digits|) + digits
  }

  function Abs(n: int): nat {
    if n < 0 then -n else n
  }

  /** `filsToDecimal`: sign, whole part, point, two digits. */
  function FilsToDecimal(minor: int): string {
    var padded := PadStart(Decimal(Abs(minor)), 3);
    (if minor < 0 then "-" else "") + padded[..|padded| - 2] + "." + padded[|padded| - 2..]
  }

  /** `minorToDecimal`: whole and fraction by division. */
  function MinorToDecimal(minor: int): string {
    (if minor < 0 then "-" else "") + Decimal(Abs(minor) / 100) + "." + PadStart(Decimal(Abs(minor) % 100), 2)
  }

  /** A comma goes before a digit that has a multiple of three digits from it to the end, unless it is the first. */
  predicate CommaBefore(n: nat, i: nat) {
    0 < i < n && (n - i) % 3 == 0
  }

  /** `groupThousands` over the first `i` digits. */
  function GroupedDigits(digits: string, i: nat): string
    requires i <= |digits|
  {
    if i == 0 then []
    else GroupedDigits(digits, i - 1) + (if CommaBefore(|digits|, i - 1) then "," else "") + [digits[i - 1]]
  }

  const ZERO_DECIMAL: set<string> := {"JPY", "KRW"}

  const THREE_DECIMAL: set<string> := {"KWD", "BHD", "OMR", "JOD", "TND"}

  function CurrencyExponent(currency: string): nat {
    if Upper(currency) in ZERO_DECIMAL then 0 else if Upper(currency) in THREE_DECIMAL then 3 else 2
  }

  /** `formatMoneyMinor`. */
  function FormatMoneyMinor(minor: int, currency: string): string {
    var exponent := CurrencyExponent(currency);
    var padded := PadStart(Decimal(Abs(minor)), exponent + 1);
    var whole := padded[..|padded| - exponent];
    (if minor < 0 then "-" else "") + Upper(currency) + " " + GroupedDigits(whole, |whole|)
    + (if exponent == 0 then "" else "." + padded[|padded| - exponent..])
  }

  lemma {:induction false} GroupedPrefix(digits: string, n: nat, i: nat)
    requires i <= n && n + 3 == |digits|
    ensures GroupedDigits(digits, i) == GroupedDigits(digits[..n], i)
  {
    if i > 0 {
      GroupedPrefix(digits, n, i - 1);
      assert (|digits| - (i - 1)) % 3 == (n - (i - 1)) % 3;
    }
  }

  /** Up to three digits stand as they are; of more, the last three follow a comma and the rest is grouped the same way. */
  lemma {:induction false} GroupedInThrees(digits: string)
    ensures var n := |digits| - 3;
      GroupedDigits(digits, |digits|) ==
        if |digits| <= 3 then digits else GroupedDigits(digits[..n], n) + "," + digits[n..]
  {
    if |digits| <= 3 {
      NoComma(digits, |digits|);
    } else {
      var n := |digits| - 3;
      GroupedPrefix(digits, n, n);
      var front := GroupedDigits(digits, n);
      assert GroupedDigits(digits, n + 1) == front + "," + [digits[n]];
      assert GroupedDigits(digits, n + 2) == front + "," + [digits[n]] + [digits[n + 1]];
      assert GroupedDigits(digits, n + 3) == front + "," + [digits[n]] + [digits[n + 1]] + [digits[n + 2]];
      assert digits[n..] == [digits[n]] + [digits[n + 1]] + [digits[n + 2]];
    }
  }

  lemma {:induction false} NoComma(digits: string, i: nat)
    requires i <= |digits| <= 3
    ensures GroupedDigits(digits, i) == digits[..i]
  {
    if i > 0 {
      NoComma(digits, i - 1);
    }
  }

  /** How many places a currency has. */
  ghost function Places(currency: string): nat {
    match Upper(currency)
    case "JPY" => 0
    case "KRW" => 0
    case "KWD" => 3
    case "BHD" => 3
    case "OMR" => 3
    case "JOD" => 3
    case "TND" => 3
    case _ => 2
  }

  // ---------------------------------------------------------------- the exact meaning

  /** The magnitude `whole.fraction` in minor units, rounded half-up to two places. */
  function ExactMinor(whole: string, fraction: string): nat
    requires AllDigits(whole) && AllDigits(fraction)
  {
    ValueAppend(whole, fraction);
    HalfUp(100 * Value(whole + fraction), Pow10(|fraction|))
  }

  /** The first two places, and one more when the third digit is five or above. */
  function Truncated(whole: string, fraction: string): nat
    requires AllDigits(whole) && AllDigits(fraction)
  {
    var two := (fraction + "00")[..2];
    TwoDigits(fraction);
    Value(whole) * 100 + Value(two) + (if |fraction| > 2 && DigitValue(fraction[2]) >= 5 then 1 else 0)
  }

  lemma TwoDigits(fraction: string)
    requires AllDigits(fraction)
    ensures AllDigits((fraction + "00")[..2])
  {
  }

  /** The third digit decides: a rest is at least a half exactly when its first digit is at least five. */
  lemma {:induction false} FirstDigitDecides(rest: string)
    requires AllDigits(rest) && rest != []
    ensures Value(rest) < Pow10(|rest|)
    ensures 2 * Value(rest) >= Pow10(|rest|) <==> DigitValue(rest[0]) >= 5
  {
    var d, tail := rest[..1], rest[1..];
    assert rest == d + tail;
    ValueAppend(d, tail);
    OneDigit(rest[0]);
    assert d == [rest[0]];
    ValueBound(rest);
    ValueBound(tail);
    Leading(DigitValue(rest[0]), Pow10(|tail|), Value(tail));
  }

  lemma OneDigit(c: char)
    requires IsDigit(c)
    ensures AllDigits([c]) && Value([c]) == DigitValue(c)
  {
    assert [c][..0] == [];
  }

  lemma Leading(d: nat, p: nat, v: nat)
    requires v < p
    ensures 2 * (d * p + v) >= 10 * p <==> d >= 5
  {
    if d >= 5 {
      assert d * p >= 5 * p;
    } else {
      assert d * p <= 4 * p;
    }
  }

  /** Looking at three digits is rounding the exact value half-up. */
  lemma TruncationRounds(whole: string, fraction: string)
    requires AllDigits(whole) && AllDigits(fraction)
    ensures Truncated(whole, fraction) == ExactMinor(whole, fraction)
  {
    hide HalfUp, Value, Pow10;
    ValueAppend(whole, fraction);
    if |fraction| == 0 {
      NoPlaces(whole, fraction);
    } else if |fraction| == 1 {
      OnePlace(whole, fraction);
    } else {
      ManyPlaces(whole, fraction);
    }
  }

  lemma NoPlaces(whole: string, fraction: string)
    requires AllDigits(whole) && fraction == []
    ensures Truncated(whole, fraction) == ExactMinor(whole, fraction)
  {
    assert (fraction + "00")[..2] == "00" && whole + fraction == whole;
    ValueZeros(2);
    assert Zeros(2) == "00";
    HalfUpExact(100 * Value(whole), 1);
  }

  lemma OnePlace(whole: string, fraction: string)
    requires AllDigits(whole) && AllDigits(fraction) && |fraction| == 1
    ensures Truncated(whole, fraction) == ExactMinor(whole, fraction)
  {
    assert (fraction + "00")[..2] == fraction + "0";
    ValueAppend(fraction, "0");
    ValueAppend(whole, fraction);
    OneDigit('0');
    assert Pow10(1) == 10;
    HalfUpExact(Value(whole) * 100 + Value(fraction) * 10, 10);
  }

  lemma ManyPlaces(whole: string, fraction: string)
    requires AllDigits(whole) && AllDigits(fraction) && |fraction| >= 2
    ensures Truncated(whole, fraction) == ExactMinor(whole, fraction)
  {
    var two, rest := fraction[..2], fraction[2..];
    assert fraction == two + rest && (fraction + "00")[..2] == two;
    ValueAppend(whole, fraction);
    ValueAppend(two, rest);
    ValueBound(rest);
    PowerSplit(|rest|);
    var a, p := Value(whole) * 100 + Value(two), Pow10(|rest|);
    Regroup(Value(whole), Value(two), Value(rest), p);
    hide Value, Pow10;
    if rest == [] {
      HalfUpExact(a, 100);
      assert p == 1 && Value(rest) == 0 by { EmptyRest(rest); }
    } else {
      FirstDigitDecides(rest);
      assert fraction[2] == rest[0];
      HalfUpScaled(a, p, Value(rest));
    }
  }

  lemma {:induction false} EmptyRest(rest: string)
    requires rest == []
    ensures AllDigits(rest) && Value(rest) == 0 && Pow10(|rest|) == 1
  {
  }

  lemma PowerSplit(n: nat)
    ensures Pow10(n + 2) == 100 * Pow10(n)
  {
  }

  lemma Regroup(w: nat, t: nat, r: nat, p: nat)
    ensures w * (100 * p) + (t * p + r) == (w * 100 + t) * p + r
  {
  }

  /** The factor 100 cancels. */
  lemma HalfUpScaled(a: nat, p: nat, rest: nat)
    requires p > 0 && rest < p
    ensures HalfUp(100 * (a * p + rest), 100 * p) == a + (if 2 * rest >= p then 1 else 0)
  {
    HalfUpRest(a, 100 * p, 100 * rest);
    Factor(a, p, rest);
  }

  lemma Factor(a: nat, p: nat, rest: nat)
    ensures 100 * (a * p + rest) == a * (100 * p) + 100 * rest
  {
  }

  // ---------------------------------------------------------------- the Salla parser

  /** `/^\d*(\.\d*)?$/`. */
  predicate PlainDecimal(s: string) {
    var dot := IndexOf(s, '.');
    AllDigits(s[..dot]) && (dot < |s| ==> AllDigits(s[dot + 1..]))
  }

  function SallaMagnitude(s: string): nat {
    if !PlainDecimal(s) then 0
    else
      var dot := IndexOf(s, '.');
      var fracRaw := if dot < |s| then s[dot + 1..] else "";
      TwoDigits(fracRaw);
      var frac := (fracRaw + "00")[..2];
      Value(s[..dot]) * 100 + Value(frac) + (if |fracRaw| > 2 && fracRaw[2] >= '5' then 1 else 0)
  }

  /** `decimalStringToMinor`: trim, sign, then whole and first two places, rounding on the third. */
  function SallaMinor(input: string): int {
    var s := Trim(input);
    if s == "" then 0
    else if s[0] == '-' then -(SallaMagnitude(s[1..]) as int)
    else if s[0] == '+' then SallaMagnitude(s[1..])
    else SallaMagnitude(s)
  }

  // ---------------------------------------------------------------- the Zid parser

  predicate NotSeparator(c: char) {
    c != ',' && c != '_' && c != ' '
  }

  function DigitsOnly(s: string): (d: string)
    ensures AllDigits(d)
  {
    FilterKeeps(s, IsDigit);
    Filter(s, IsDigit)
  }

  function ZidMagnitude(unsigned: string): nat {
    var cleaned := Filter(unsigned, NotSeparator);
    var dot := IndexOf(cleaned, '.');
    var intPart := cleaned[..dot];
    var after := if dot < |cleaned| then cleaned[dot + 1..] else "";
    var intDigits, fracDigits := DigitsOnly(intPart), DigitsOnly(after[..IndexOf(after, '.')]);
    if intDigits == "" && fracDigits == "" then 0
    else
      TwoDigits(fracDigits);
      Value(intDigits) * 100 + Value((fracDigits + "00")[..2])
      + (if |fracDigits| > 2 && fracDigits[2] as int - '0' as int >= 5 then 1 else 0)
  }

  /** Zid's `toMinorUnits`: drop separators, keep digits, round on the third place. */
  function ZidMinor(value: string): int {
    var raw := Trim(value);
    if raw == "" then 0
    else if raw[0] == '-' then -(ZidMagnitude(raw[1..]) as int)
    else ZidMagnitude(raw)
  }

  // ---------------------------------------------------------------- the parsers agree

  datatype Sign = NoSign | Plus | Minus

  function SignText(sign: Sign): string {
    match sign case NoSign => "" case Plus => "+" case Minus => "-"
  }

  function Signed(sign: Sign, n: nat): int {
    if sign == Minus then -(n as int) else n
  }

  /** Digits with an optional point and more digits. */
  function Body(whole: string, point: bool, fraction: string): string {
    whole + (if point then "." + fraction else "")
  }

  lemma BodySplits(whole: string, point: bool, fraction: string)
    requires AllDigits(whole) && AllDigits(fraction) && (!point ==> fraction == "")
    ensures var s := Body(whole, point, fraction);
      var dot := IndexOf(s, '.');
      && dot == |whole| && s[..dot] == whole
      && (dot < |s| <==> point) && (point ==> s[dot + 1..] == fraction)
  {
    var s := Body(whole, point, fraction);
    DigitsHaveNo(whole, '.');
    if point {
      assert s == whole + ['.'] + fraction;
      IndexAfter(whole, '.', fraction);
    } else {
      assert s == whole;
      IndexNone(whole, '.');
    }
  }

  lemma SallaReadsBody(whole: string, point: bool, fraction: string)
    requires AllDigits(whole) && AllDigits(fraction) && (!point ==> fraction == "")
    ensures SallaMagnitude(Body(whole, point, fraction)) == ExactMinor(whole, fraction)
  {
    hide ExactMinor, IndexOf;
    BodySplits(whole, point, fraction);
    TruncationRounds(whole, fraction);
  }

  /** Only a text of digits with an optional point and more digits is read as something. */
  lemma MalformedIsNothing(s: string)
    ensures SallaMagnitude(s) != 0 ==>
      exists whole, point, fraction ::
        AllDigits(whole) && AllDigits(fraction) && (!point ==> fraction == "") && s == Body(whole, point, fraction)
  {
    if PlainDecimal(s) {
      var dot := IndexOf(s, '.');
      var fraction := if dot < |s| then s[dot + 1..] else "";
      assert s == Body(s[..dot], dot < |s|, fraction);
    }
  }

  lemma {:induction false} DigitsOfDigits(s: string)
    requires AllDigits(s)
    ensures DigitsOnly(s) == s && Filter(s, NotSeparator) == s
  {
    FilterAll(s, IsDigit);
    FilterAll(s, NotSeparator);
  }

  lemma BodyIsClean(whole: string, point: bool, fraction: string)
    requires AllDigits(whole) && AllDigits(fraction)
    ensures Filter(Body(whole, point, fraction), NotSeparator) == Body(whole, point, fraction)
  {
    FilterAll(Body(whole, point, fraction), NotSeparator);
  }

  /** Reading text that, once cleaned, is junk and digits, a point, and digits. */
  lemma {:induction false} ZidReads(unsigned: string, junk: string, whole: string, point: bool, fraction: string)
    requires AllDigits(whole) && AllDigits(fraction) && (!point ==> fraction == "")
    requires (forall i :: 0 <= i < |junk| ==> !IsDigit(junk[i]) && junk[i] != '.')
    requires Filter(unsigned, NotSeparator) == junk + Body(whole, point, fraction)
    ensures ZidMagnitude(unsigned) == ExactMinor(whole, fraction)
  {
    hide ExactMinor, IndexOf, Value, Filter;
    var cleaned := junk + Body(whole, point, fraction);
    DigitsHaveNo(whole, '.');
    DigitsHaveNo(fraction, '.');
    assert '.' !in junk + whole;
    if point {
      assert cleaned == junk + whole + ['.'] + fraction;
      IndexAfter(junk + whole, '.', fraction);
      assert cleaned[|junk + whole| + 1..] == fraction;
    } else {
      assert cleaned == junk + whole;
      IndexNone(junk + whole, '.');
    }
    assert cleaned[..|junk + whole|] == junk + whole;
    IndexNone(fraction, '.');
    assert fraction[..|fraction|] == fraction;
    FilterAppend(junk, whole, IsDigit);
    FilterNone(junk, IsDigit);
    DigitsOfDigits(whole);
    DigitsOfDigits(fraction);
    assert [] + whole == whole;
    TruncationRounds(whole, fraction);
    NothingIsZero(whole, fraction);
  }

  lemma NothingIsZero(whole: string, fraction: string)
    requires AllDigits(whole) && AllDigits(fraction)
    ensures whole == "" && fraction == "" ==> Truncated(whole, fraction) == 0
  {
    if whole == "" && fraction == "" {
      assert (fraction + "00")[..2] == Zeros(2);
      ValueZeros(2);
    }
  }

  lemma SignedHasNoSpaces(sign: Sign, whole: string, point: bool, fraction: string)
    requires AllDigits(whole) && AllDigits(fraction)
    ensures NoSpaces(SignText(sign) + Body(whole, point, fraction))
  {
  }

  lemma NegativesAgree(whole: string, point: bool, fraction: string)
    requires AllDigits(whole) && AllDigits(fraction) && (!point ==> fraction == "")
    ensures var s := "-" + Body(whole, point, fraction);
      SallaMinor(s) == ZidMinor(s) == -(ExactMinor(whole, fraction) as int)
  {
    hide SallaMagnitude, ZidMagnitude, ExactMinor, Value, Filter, Body;
    var body := Body(whole, point, fraction);
    SignedHasNoSpaces(Minus, whole, point, fraction);
    TrimNothing("-" + body);
    SallaReadsBody(whole, point, fraction);
    BodyIsClean(whole, point, fraction);
    assert "" + body == body;
    ZidReads(body, "", whole, point, fraction);
    assert ("-" + body)[1..] == body;
  }

  lemma PositivesAgree(whole: string, point: bool, fraction: string)
    requires AllDigits(whole) && AllDigits(fraction) && (!point ==> fraction == "")
    ensures var s := "+" + Body(whole, point, fraction);
      SallaMinor(s) == ZidMinor(s) == ExactMinor(whole, fraction)
  {
    hide SallaMagnitude, ZidMagnitude, ExactMinor, Value, Body;
    var body := Body(whole, point, fraction);
    var s := "+" + body;
    SignedHasNoSpaces(Plus, whole, point, fraction);
    TrimNothing(s);
    SallaReadsBody(whole, point, fraction);
    BodyIsClean(whole, point, fraction);
    FilterAppend("+", body, NotSeparator);
    FilterAll("+", NotSeparator);
    hide Filter;
    ZidReads(s, "+", whole, point, fraction);
    assert s[1..] == body;
  }

  lemma UnsignedAgree(whole: string, point: bool, fraction: string)
    requires AllDigits(whole) && AllDigits(fraction) && (!point ==> fraction == "")
    ensures var s := Body(whole, point, fraction);
      SallaMinor(s) == ZidMinor(s) == ExactMinor(whole, fraction)
  {
    hide SallaMagnitude, ZidMagnitude, ExactMinor, Value, Filter;
    var s := Body(whole, point, fraction);
    assert "" + s == s;
    SignedHasNoSpaces(NoSign, whole, point, fraction);
    TrimNothing(s);
    SallaReadsBody(whole, point, fraction);
    BodyIsClean(whole, point, fraction);
    ZidReads(s, "", whole, point, fraction);
    NothingExact(whole, fraction);
    assert s == "" ==> whole == "" && fraction == "";
    assert s != "" ==> s[0] == if whole != "" then whole[0] else '.';
  }

  /**
   * On every text of the form sign, digits, optional point and digits, both parsers give the exact
   * magnitude rounded half-up to two places, with the sign.
   */
  lemma ParsersAgree(sign: Sign, whole: string, point: bool, fraction: string)
    requires AllDigits(whole) && AllDigits(fraction) && (!point ==> fraction == "")
    ensures var s := SignText(sign) + Body(whole, point, fraction);
      SallaMinor(s) == ZidMinor(s) == Signed(sign, ExactMinor(whole, fraction))
  {
    hide SallaMinor, ZidMinor, ExactMinor, Body;
    match sign
    case NoSign =>
      UnsignedAgree(whole, point, fraction);
      assert "" + Body(whole, point, fraction) == Body(whole, point, fraction);
    case Minus => NegativesAgree(whole, point, fraction);
    case Plus => PositivesAgree(whole, point, fraction);
  }

  lemma NothingExact(whole: string, fraction: string)
    requires AllDigits(whole) && AllDigits(fraction)
    ensures whole == "" && fraction == "" ==> ExactMinor(whole, fraction) == 0
  {
    TruncationRounds(whole, fraction);
    NothingIsZero(whole, fraction);
  }

  // ---------------------------------------------------------------- printing, then reading

  /** The printed parts: whole digits and two more, which together denote the amount. */
  lemma {:induction false} PrintedParts(n: nat, places: nat)
    ensures var padded := PadStart(Decimal(n), places + 1);
      && |padded| > places && AllDigits(padded) && Value(padded) == n
      && AllDigits(padded[..|padded| - places]) && AllDigits(padded[|padded| - places..])
      && padded == padded[..|padded| - places] + padded[|padded| - places..]
  {
    ValueOfDecimal(n);
    if |Decimal(n)| < places + 1 {
      ValueOfZeros(places + 1 - |Decimal(n)|, Decimal(n));
    }
  }

  ghost predicate PrintedAs(text: string, minor: int, code: string, places: nat, whole: string, fraction: string) {
    && AllDigits(whole) && AllDigits(fraction) && whole != "" && |fraction| == places
    && AllDigits(whole + fraction) && Value(whole + fraction) == Abs(minor)
    && text == (if minor < 0 then "-" else "") + code + " " + GroupedDigits(whole, |whole|)
               + (if places == 0 then "" else "." + fraction)
  }

  /** An amount is printed with its sign, its code, and its digits cut where the currency's places begin. */
  lemma FormattedSays(minor: int, currency: string)
    ensures exists whole, fraction ::
      PrintedAs(FormatMoneyMinor(minor, currency), minor, Upper(currency), Places(currency), whole, fraction)
  {
    PlacesAre(currency);
    hide GroupedDigits, CurrencyExponent, Decimal, PadStart, Value, AllDigits, Places;
    var places := CurrencyExponent(currency);
    PrintedParts(Abs(minor), places);
    var padded := PadStart(Decimal(Abs(minor)), places + 1);
    var whole, fraction := padded[..|padded| - places], padded[|padded| - places..];
    assert PrintedAs(FormatMoneyMinor(minor, currency), minor, Upper(currency), places, whole, fraction);
  }

  lemma PlacesAre(currency: string)
    ensures CurrencyExponent(currency) == Places(currency)
  {
    hide Upper;
  }

  /** Two places are exact. */
  lemma {:induction false} TwoPlacesExact(whole: string, fraction: string)
    requires AllDigits(whole) && AllDigits(fraction) && |fraction| == 2
    ensures AllDigits(whole + fraction) && ExactMinor(whole, fraction) == Value(whole + fraction)
  {
    ValueAppend(whole, fraction);
    assert Pow10(2) == 100;
    HalfUpExact(Value(whole + fraction), 100);
  }

  /** Both parsers undo `filsToDecimal`, for every amount. */
  lemma ParsersUndoFils(minor: int)
    ensures SallaMinor(FilsToDecimal(minor)) == minor && ZidMinor(FilsToDecimal(minor)) == minor
  {
    hide SallaMinor, ZidMinor, ExactMinor, Value, Decimal, PadStart;
    var padded := PadStart(Decimal(Abs(minor)), 3);
    PrintedParts(Abs(minor), 2);
    var whole, fraction := padded[..|padded| - 2], padded[|padded| - 2..];
    var sign := if minor < 0 then Minus else NoSign;
    assert FilsToDecimal(minor) == SignText(sign) + Body(whole, true, fraction);
    ParsersAgree(sign, whole, true, fraction);
    TwoPlacesExact(whole, fraction);
  }

  predicate Capitals(s: string) {
    forall i :: 0 <= i < |s| ==> 'A' <= s[i] <= 'Z'
  }

  predicate Letters(s: string) {
    forall i :: 0 <= i < |s| ==> 'a' <= s[i] <= 'z' || 'A' <= s[i] <= 'Z'
  }

  lemma {:induction false} UngroupDigits(digits: string, i: nat)
    requires AllDigits(digits) && i <= |digits|
    ensures Filter(GroupedDigits(digits, i), NotSeparator) == digits[..i]
  {
    hide CommaBefore, Filter;
    if i == 0 {
      FilterNone([], NotSeparator);
    } else {
      UngroupDigits(digits, i - 1);
      var front, comma, d := GroupedDigits(digits, i - 1), if CommaBefore(|digits|, i - 1) then "," else "", [digits[i - 1]];
      FilterAppend(front + comma, d, NotSeparator);
      FilterAppend(front, comma, NotSeparator);
      FilterNone(comma, NotSeparator);
      FilterAll(d, NotSeparator);
    }
  }

  lemma UpperLetters(currency: string)
    requires Letters(currency)
    ensures Capitals(Upper(currency))
  {
  }

  lemma {:induction false} CleanWhole(code: string, whole: string)
    requires AllDigits(whole) && Capitals(code)
    ensures Filter(code + " " + GroupedDigits(whole, |whole|), NotSeparator) == code + whole
  {
    FilterAll(code, NotSeparator);
    FilterNone(" ", NotSeparator);
    UngroupDigits(whole, |whole|);
    hide Filter, GroupedDigits, AllDigits;
    FilterAppend(code + " ", GroupedDigits(whole, |whole|), NotSeparator);
    FilterAppend(code, " ", NotSeparator);
    assert whole[..|whole|] == whole && code + [] == code;
  }

  lemma {:induction false} CleanTail(fraction: string)
    requires AllDigits(fraction)
    ensures Filter("." + fraction, NotSeparator) == "." + fraction
  {
    FilterAll("." + fraction, NotSeparator);
  }

  /** What Zid's cleaning makes of an amount printed with its currency and grouped digits. */
  lemma {:induction false} CleanFormatted(code: string, whole: string, fraction: string)
    requires AllDigits(whole) && AllDigits(fraction)
    requires Capitals(code)
    ensures Filter(code + " " + GroupedDigits(whole, |whole|) + ("." + fraction), NotSeparator)
      == code + Body(whole, true, fraction)
  {
    CleanWhole(code, whole);
    CleanTail(fraction);
    hide Filter, GroupedDigits, AllDigits, Capitals;
    FilterAppend(code + " " + GroupedDigits(whole, |whole|), "." + fraction, NotSeparator);
    PutTogether(code, whole, "." + fraction);
  }

  lemma PutTogether(a: string, b: string, c: string)
    ensures a + b + c == a + (b + c)
  {
  }

  lemma EndsStay(s: string)
    requires s != [] && !IsSpace(s[0]) && !IsSpace(s[|s| - 1])
    ensures Trim(s) == s
  {
  }

  lemma FormattedIs(minor: int, currency: string)
    requires CurrencyExponent(currency) == 2
    ensures var padded := PadStart(Decimal(Abs(minor)), 3);
      var whole, fraction := padded[..|padded| - 2], padded[|padded| - 2..];
      FormatMoneyMinor(minor, currency) == (if minor < 0 then "-" else "")
        + (Upper(currency) + " " + GroupedDigits(whole, |whole|) + ("." + fraction))
  {
    hide Decimal, PadStart, GroupedDigits, CurrencyExponent, Upper;
    var padded := PadStart(Decimal(Abs(minor)), 3);
    var whole := padded[..|padded| - 2];
    Reassociate(if minor < 0 then "-" else "", Upper(currency), GroupedDigits(whole, |whole|), "." + padded[|padded| - 2..]);
  }

  lemma Reassociate(a: string, b: string, c: string, d: string)
    ensures a + b + " " + c + d == a + (b + " " + c + d)
  {
  }

  /** Zid also undoes the grouped, currency-coded text of customer messages, for two-decimal currencies. */
  lemma ZidUndoesFormatted(minor: int, currency: string)
    requires currency != [] && Letters(currency) && CurrencyExponent(currency) == 2
    ensures ZidMinor(FormatMoneyMinor(minor, currency)) == minor
  {
    var padded, code := PadStart(Decimal(Abs(minor)), 3), Upper(currency);
    PrintedParts(Abs(minor), 2);
    UpperLetters(currency);
    FormattedIs(minor, currency);
    var whole, fraction := padded[..|padded| - 2], padded[|padded| - 2..];
    ReadFormatted(minor < 0, code, whole, fraction);
    TwoPlacesExact(whole, fraction);
  }

  lemma {:induction false} ReadFormatted(negative: bool, code: string, whole: string, fraction: string)
    requires AllDigits(whole) && AllDigits(fraction) && |fraction| == 2
    requires code != [] && Capitals(code)
    ensures var s := (if negative then "-" else "") + (code + " " + GroupedDigits(whole, |whole|) + ("." + fraction));
      ZidMinor(s) == if negative then -(ExactMinor(whole, fraction) as int) else ExactMinor(whole, fraction)
  {
    var unsigned := code + " " + GroupedDigits(whole, |whole|) + ("." + fraction);
    assert unsigned[0] == code[0] && unsigned[|unsigned| - 1] == fraction[1];
    ZidSign(negative, unsigned);
    CleanFormatted(code, whole, fraction);
    hide ExactMinor, GroupedDigits, Filter, ZidMagnitude, ZidMinor, AllDigits;
    ZidReads(unsigned, code, whole, true, fraction);
  }

  lemma ZidSign(negative: bool, unsigned: string)
    requires unsigned != [] && unsigned[0] != '-' && !IsSpace(unsigned[0]) && !IsSpace(unsigned[|unsigned| - 1])
    ensures ZidMinor((if negative then "-" else "") + unsigned) ==
      if negative then -(ZidMagnitude(unsigned) as int) else ZidMagnitude(unsigned)
  {
    hide ZidMagnitude;
    var s := (if negative then "-" else "") + unsigned;
    assert s[if negative then 1 else 0..] == unsigned;
    EndsStay(s);
  }

  // ---------------------------------------------------------------- the admin form

  /** `decimalToMinor`: one to thirteen whole digits, optionally a point and one or two more. */
  function DecimalToMinor(input: string): Option<int> {
    var s := Trim(input);
    var dot := IndexOf(s, '.');
    if !(1 <= dot <= 13 && AllDigits(s[..dot])) then None
    else if dot == |s| then Some(Value(s) * 100)
    else
      var frac := s[dot + 1..];
      if !(1 <= |frac| <= 2 && AllDigits(frac)) then None
      else
        TwoDigits(frac);
        Some(Value(s[..dot]) * 100 + Value((frac + "00")[..2]))
  }

  lemma {:induction false} DecimalLength(n: nat, k: nat)
    requires k >= 1
    ensures |Decimal(n)| <= k <==> n < Pow10(k)
  {
    if k == 1 {
      assert Pow10(1) == 10;
    } else if n < 10 {
      PowerAtLeast(k);
    } else {
      DecimalLength(n / 10, k - 1);
    }
  }

  lemma {:induction false} PowerAtLeast(k: nat)
    requires k >= 1
    ensures Pow10(k) >= 10
  {
    if k > 1 {
      PowerAtLeast(k - 1);
    }
  }

  lemma Thirteen()
    ensures Pow10(13) == 10_000_000_000_000
  {
    assert Pow10(3) == 1000;
    assert Pow10(6) == 1_000_000;
    assert Pow10(9) == 1_000_000_000;
  }

  lemma {:induction false} FractionPrinted(r: nat)
    requires r < 100
    ensures var f := PadStart(Decimal(r), 2); |f| == 2 && AllDigits(f) && Value(f) == r
  {
    ValueOfDecimal(r);
    assert Pow10(2) == 100;
    DecimalLength(r, 2);
    if |Decimal(r)| < 2 {
      ValueOfZeros(2 - |Decimal(r)|, Decimal(r));
    }
  }

  lemma AdminText(minor: int)
    ensures var whole, f := Decimal(Abs(minor) / 100), PadStart(Decimal(Abs(minor) % 100), 2);
      MinorToDecimal(minor) == (if minor < 0 then ['-'] else []) + whole + ['.'] + f
  {
    hide Decimal, PadStart;
  }

  /** The admin form reads back exactly what it prints for non-negative amounts of up to thirteen whole digits, and refuses the rest. */
  lemma AdminRoundTrip(minor: int)
    ensures DecimalToMinor(MinorToDecimal(minor)) ==
      if 0 <= minor < 1_000_000_000_000_000 then Some(minor) else None
  {
    var whole, f := Decimal(Abs(minor) / 100), PadStart(Decimal(Abs(minor) % 100), 2);
    hide Value, Decimal, PadStart, Pow10, DecimalToMinor, AllDigits;
    FractionPrinted(Abs(minor) % 100);
    ValueOfDecimal(Abs(minor) / 100);
    DecimalLength(Abs(minor) / 100, 13);
    Thirteen();
    hide MinorToDecimal;
    AdminText(minor);
    if minor < 0 {
      AdminRefusesSign(MinorToDecimal(minor), whole, f);
    } else {
      assert MinorToDecimal(minor) == whole + ['.'] + f;
      AdminReads(whole, f);
    }
  }

  lemma {:induction false} AdminReads(whole: string, f: string)
    requires AllDigits(whole) && AllDigits(f) && whole != [] && |f| == 2
    ensures DecimalToMinor(whole + ['.'] + f) == if |whole| <= 13 then Some(Value(whole) * 100 + Value(f)) else None
  {
    hide Value, IndexOf;
    var s := whole + ['.'] + f;
    DigitsHaveNo(whole, '.');
    IndexAfter(whole, '.', f);
    assert NoSpaces(s);
    TrimNothing(s);
    assert s[..|whole|] == whole && s[|whole| + 1..] == f;
    assert (f + "00")[..2] == f;
  }

  lemma AdminRefusesSign(s: string, whole: string, f: string)
    requires AllDigits(whole) && AllDigits(f) && whole != [] && s == "-" + whole + "." + f
    ensures DecimalToMinor(s).None?
  {
    hide Value;
    assert NoSpaces(s);
    TrimNothing(s);
    assert s[0] == '-' && !IsDigit('-');
    var dot := IndexOf(s, '.');
    assert dot > 0;
    assert s[..dot][0] == '-';
  }

  /** The two printers agree. */
  lemma PrintersAgree(minor: int)
    ensures FilsToDecimal(minor) == MinorToDecimal(minor)
  {
    var n := Abs(minor);
    PrintedTwice(n);
  }

  lemma {:induction false} PrintedTwice(n: nat)
    ensures var padded := PadStart(Decimal(n), 3);
      && padded[..|padded| - 2] == Decimal(n / 100)
      && padded[|padded| - 2..] == PadStart(Decimal(n % 100), 2)
  {
    if n < 10 {
      assert PadStart(Decimal(n), 3) == "00" + Decimal(n);
      assert Zeros(1) == "0";
    } else if n < 100 {
      assert Decimal(n) == [DigitChar(n / 10), DigitChar(n % 10)];
      assert Zeros(1) == "0";
    } else {
      assert n / 10 / 10 == n / 100 && n % 100 / 10 == n / 10 % 10 && n % 100 % 10 == n % 10;
      assert Decimal(n) == Decimal(n / 100) + [DigitChar(n / 10 % 10)] + [DigitChar(n % 10)];
      LastTwo(n % 100);
    }
  }

  lemma {:induction false} LastTwo(r: nat)
    requires r < 100
    ensures PadStart(Decimal(r), 2) == [DigitChar(r / 10), DigitChar(r % 10)]
  {
    if r < 10 {
      assert Zeros(1) == "0";
    } else {
      assert Decimal(r) == [DigitChar(r / 10)] + [DigitChar(r % 10)];
    }
  }
}
