/** VAT on a sale: extraction from inclusive prices, the reverse charge decision, and the totals that follow. */
module Tax {
  import opened Common
  import opened Rounding

  datatype TaxError = BadRate | BadPrice | BadDiscount | BadQuantity | DiscountExceedsLine

  datatype LineTotals = LineTotals(gross: int, tax: int, net: int)

  datatype SaleTotals = SaleTotals(subtotal: int, tax: int, net: int, total: int)

  predicate RateOk(rateBp: int) {
    0 <= rateBp <= 10000
  }

  /** `vatFromInclusive` of an amount its callers have checked: gross times rate over one plus the rate. */
  function Vat(gross: nat, rateBp: nat): nat {
    HalfUp(gross * rateBp, 10000 + rateBp)
  }

  /** The price times a quantity in thousandths, rounded, less the discount. */
  function Inclusive(price: int, quantity: int, discount: int): int {
    HalfUp(price * quantity, 1000) - discount
  }

  /** What a line costs before VAT is looked at: the price times the quantity to the nearest unit, and exactly for whole quantities. */
  lemma InclusiveIsNearest(price: int, quantity: int, discount: int)
    ensures -1000 < 2 * (1000 * (Inclusive(price, quantity, discount) + discount) - price * quantity) <= 1000
    ensures quantity % 1000 == 0 ==> Inclusive(price, quantity, discount) == price * (quantity / 1000) - discount
  {
    HalfUpNear(price * quantity, 1000);
    if quantity % 1000 == 0 {
      var k := quantity / 1000;
      assert price * quantity == (price * k) * 1000 by { Thousands(price, k, quantity); }
      HalfUpExact(price * k, 1000);
    }
  }

  lemma Thousands(x: int, k: int, q: int)
    requires q == k * 1000
    ensures x * q == (x * k) * 1000
  {
  }

  function LineError(price: int, quantity: int, discount: int): Option<TaxError> {
    if price < 0 then Some(BadPrice)
    else if discount < 0 then Some(BadDiscount)
    else if quantity <= 0 then Some(BadQuantity)
    else if Inclusive(price, quantity, discount) < 0 then Some(DiscountExceedsLine)
    else None
  }

  /** `lineTotals`. */
  function LineTotalsOf(price: int, quantity: int, rateBp: int, discount: int): Result<LineTotals, TaxError> {
    match LineError(price, quantity, discount)
    case Some(e) => Err(e)
    case None =>
      if !RateOk(rateBp) then Err(BadRate)
      else
        var gross := Inclusive(price, quantity, discount);
        Ok(LineTotals(gross, Vat(gross, rateBp), gross - Vat(gross, rateBp)))
  }

  /** Which line is refused and why: the price, the discount, the quantity, a discount above the rounded amount, the rate. */
  lemma LineRefusalSays(price: int, quantity: int, rateBp: int, discount: int)
    ensures var r := LineTotalsOf(price, quantity, rateBp, discount);
      if price < 0 then r == Err(BadPrice)
      else if discount < 0 then r == Err(BadDiscount)
      else if quantity <= 0 then r == Err(BadQuantity)
      else if HalfUp(price * quantity, 1000) < discount then r == Err(DiscountExceedsLine)
      else if rateBp < 0 || 10000 < rateBp then r == Err(BadRate)
      else r.Ok? && r.value.gross == HalfUp(price * quantity, 1000) - discount && r.value.net + r.value.tax == r.value.gross
  {
    hide HalfUp;
  }

  function GrossSum(lines: seq<LineTotals>): int {
    if lines == [] then 0 else GrossSum(lines[..|lines| - 1]) + lines[|lines| - 1].gross
  }

  function TaxSum(lines: seq<LineTotals>): int {
    if lines == [] then 0 else TaxSum(lines[..|lines| - 1]) + lines[|lines| - 1].tax
  }

  /** `saleTotals`: per-line VAT summed. */
  function SaleTotalsOf(lines: seq<LineTotals>): SaleTotals {
    SaleTotals(GrossSum(lines), TaxSum(lines), GrossSum(lines) - TaxSum(lines), GrossSum(lines))
  }

  /** The VAT taken out is the integer nearest to the exact share, and is never more than was paid. */
  lemma VatIsNearest(gross: nat, rateBp: nat)
    requires RateOk(rateBp)
    ensures 0 <= Vat(gross, rateBp) <= gross
    ensures -(10000 + rateBp) <= 2 * ((10000 + rateBp) * Vat(gross, rateBp) - gross * rateBp) <= 10000 + rateBp
  {
    HalfUpNear(gross * rateBp, 10000 + rateBp);
    hide HalfUp;
    AtMostHalf(gross, rateBp, Vat(gross, rateBp));
  }

  lemma AtMostHalf(gross: nat, rateBp: nat, tax: int)
    requires RateOk(rateBp) && 2 * ((10000 + rateBp) * tax) <= 2 * (gross * rateBp) + (10000 + rateBp)
    ensures tax <= gross
  {
    Distribute(gross, 10000, rateBp);
    Spread(10000 + rateBp, tax, gross);
    Bound(10000 + rateBp, tax - gross);
    assert gross * rateBp <= gross * 10000 by { Wider(rateBp, 10000, gross); }
  }

  /** Charging the rate on what is left comes within half a (1 + rate) of the tax that was taken out. */
  lemma VatIsTheTaxOnTheNet(gross: nat, rateBp: nat)
    requires RateOk(rateBp)
    ensures var tax := Vat(gross, rateBp);
      -(10000 + rateBp) <= 2 * (10000 * tax - (gross - tax) * rateBp) <= 10000 + rateBp
  {
    VatIsNearest(gross, rateBp);
    var tax := Vat(gross, rateBp);
    hide Vat;
    assert (10000 + rateBp) * tax - gross * rateBp == 10000 * tax - (gross - tax) * rateBp;
  }

  // ---------------------------------------------------------------- the reverse charge decision

  datatype Category = S | AE | Z | E | O

  datatype TaxLine = TaxLine(device: bool, zeroRated: bool, exempt: bool)

  datatype Verification = Verified | OtherOutcome

  datatype Declaration = Declaration(resale: bool, ftaRegistered: bool, verification: Option<Verification>)

  datatype SaleContext = SaleContext(requested: bool, supplierTrn: string, buyerTrn: string,
                                     declaration: Option<Declaration>, standardRateBp: int, lines: seq<TaxLine>)

  datatype Refusal = NotRequested | SupplierNotRegistered | BuyerTrnMissing | DeclarationMissing
    | ResaleNotDeclared | FtaNotDeclared | NotVerified | NoQualifyingLines

  datatype LineTreatment = LineTreatment(category: Category, rateBp: int, reverseCharge: bool)

  datatype Kind = Standard | ReverseCharge | Mixed

  datatype Treatment = Treatment(kind: Kind, lines: seq<LineTreatment>, statement: bool, refused: Option<Refusal>)

  /** `qualifiesForRcm`. */
  predicate Qualifies(line: TaxLine) {
    !line.zeroRated && !line.exempt && line.device
  }

  predicate SomeQualifies(lines: seq<TaxLine>) {
    exists i :: 0 <= i < |lines| && Qualifies(lines[i])
  }

  /** `rcmRefusalReason`: the first unmet condition. */
  function RefusalReason(ctx: SaleContext): Option<Refusal> {
    if !ctx.requested then Some(NotRequested)
    else if ctx.supplierTrn == "" then Some(SupplierNotRegistered)
    else if ctx.buyerTrn == "" then Some(BuyerTrnMissing)
    else if ctx.declaration.None? then Some(DeclarationMissing)
    else if !ctx.declaration.value.resale then Some(ResaleNotDeclared)
    else if !ctx.declaration.value.ftaRegistered then Some(FtaNotDeclared)
    else if ctx.declaration.value.verification != Some(Verified) then Some(NotVerified)
    else if !SomeQualifies(ctx.lines) then Some(NoQualifyingLines)
    else None
  }

  /** `standardCategory`. */
  function StandardLine(line: TaxLine, rateBp: int): LineTreatment {
    if line.exempt then LineTreatment(E, 0, false)
    else if line.zeroRated then LineTreatment(Z, 0, false)
    else LineTreatment(S, rateBp, false)
  }

  function RcmLine(line: TaxLine, rateBp: int): LineTreatment {
    if Qualifies(line) then LineTreatment(AE, 0, true) else StandardLine(line, rateBp)
  }

  predicate AnyReverse(lines: seq<LineTreatment>) {
    exists i :: 0 <= i < |lines| && lines[i].reverseCharge
  }

  predicate AllReverse(lines: seq<LineTreatment>) {
    forall i :: 0 <= i < |lines| ==> lines[i].reverseCharge
  }

  /** Treat every line as the sale's outcome says. */
  function Treated(lines: seq<TaxLine>, rateBp: int, granted: bool): (r: seq<LineTreatment>)
    ensures |r| == |lines|
    ensures forall i :: 0 <= i < |r| ==> r[i] == if granted then RcmLine(lines[i], rateBp) else StandardLine(lines[i], rateBp)
  {
    if lines == [] then []
    else
      var last := lines[|lines| - 1];
      Treated(lines[..|lines| - 1], rateBp, granted) + [if granted then RcmLine(last, rateBp) else StandardLine(last, rateBp)]
  }

  /** `resolveSaleTaxTreatment`. */
  function Resolve(ctx: SaleContext): Result<Treatment, TaxError> {
    if !RateOk(ctx.standardRateBp) then Err(BadRate)
    else
      match RefusalReason(ctx)
      case Some(reason) =>
        var lines := Treated(ctx.lines, ctx.standardRateBp, false);
        Ok(Treatment(Standard, lines, false, if reason == NotRequested then None else Some(reason)))
      case None =>
        var lines := Treated(ctx.lines, ctx.standardRateBp, true);
        Ok(Treatment(if AllReverse(lines) then ReverseCharge else Mixed, lines, AnyReverse(lines), None))
  }

  /** What the sale as a whole must meet before any line can be reverse-charged. */
  ghost predicate SaleConditions(ctx: SaleContext) {
    && ctx.requested && ctx.supplierTrn != "" && ctx.buyerTrn != ""
    && ctx.declaration.Some?
    && ctx.declaration.value == Declaration(true, true, Some(Verified))
  }

  ghost predicate Reversed(t: Treatment, i: nat)
    requires i < |t.lines|
  {
    t.lines[i].category == AE
  }

  /** A line is reverse-charged exactly when the whole sale meets its conditions and the line itself is a taxable device. */
  lemma ReverseChargedIff(ctx: SaleContext, i: nat)
    requires RateOk(ctx.standardRateBp) && i < |ctx.lines|
    ensures Resolve(ctx).Ok? && |Resolve(ctx).value.lines| == |ctx.lines|
    ensures Reversed(Resolve(ctx).value, i) <==> SaleConditions(ctx) && ctx.lines[i] == TaxLine(true, false, false)
    ensures var line, treated := ctx.lines[i], Resolve(ctx).value.lines[i];
      && treated.rateBp == (if treated.category == S then ctx.standardRateBp else 0)
      && (treated.category == E <==> line.exempt)
      && (treated.category == Z <==> line.zeroRated && !line.exempt)
      && treated.category != O
      && (treated.reverseCharge <==> treated.category == AE)
  {
  }

  /** The kind counts the reverse-charged lines: none, all of at least one, or some but not all. */
  lemma KindIff(ctx: SaleContext)
    requires RateOk(ctx.standardRateBp)
    ensures var t := Resolve(ctx).value;
      && (t.kind == ReverseCharge <==> t.lines != [] && forall i :: 0 <= i < |t.lines| ==> Reversed(t, i))
      && (t.kind == Mixed <==>
          (exists i :: 0 <= i < |t.lines| && Reversed(t, i)) && exists i :: 0 <= i < |t.lines| && !Reversed(t, i))
      && (t.statement <==> exists i :: 0 <= i < |t.lines| && Reversed(t, i))
      && (t.statement <==> t.kind != Standard)
  {
    var t := Resolve(ctx).value;
    forall i | 0 <= i < |t.lines| ensures t.lines[i].reverseCharge <==> Reversed(t, i) {
    }
    if RefusalReason(ctx).None? {
      var i :| 0 <= i < |ctx.lines| && Qualifies(ctx.lines[i]);
      assert t.lines[i] == RcmLine(ctx.lines[i], ctx.standardRateBp);
      assert Reversed(t, i);
      if t.kind == Mixed {
        var j :| 0 <= j < |t.lines| && !t.lines[j].reverseCharge;
        assert !Reversed(t, j);
      }
    }
  }

  /** A cashier who asked and was refused is told why, and only then. */
  lemma RefusalIsExplained(ctx: SaleContext)
    requires RateOk(ctx.standardRateBp)
    ensures var t := Resolve(ctx).value;
      && (t.refused.Some? <==> ctx.requested && t.kind == Standard)
      && t.refused != Some(NotRequested)
  {
  }

  /** The conditions in the order they are checked. */
  ghost function Conditions(ctx: SaleContext): seq<bool> {
    var d := ctx.declaration;
    [ctx.requested, ctx.supplierTrn != "", ctx.buyerTrn != "", d.Some?, d.Some? && d.value.resale,
     d.Some? && d.value.ftaRegistered, d.Some? && d.value.verification == Some(Verified), TaxLine(true, false, false) in ctx.lines]
  }

  ghost function Rank(reason: Refusal): nat {
    match reason
    case NotRequested => 0
    case SupplierNotRegistered => 1
    case BuyerTrnMissing => 2
    case DeclarationMissing => 3
    case ResaleNotDeclared => 4
    case FtaNotDeclared => 5
    case NotVerified => 6
    case NoQualifyingLines => 7
  }

  /** The reason given is the first condition that fails. */
  lemma FirstUnmetIsReported(ctx: SaleContext, reason: Refusal)
    ensures RefusalReason(ctx) == Some(reason) <==>
      && !Conditions(ctx)[Rank(reason)]
      && forall i :: 0 <= i < Rank(reason) ==> Conditions(ctx)[i]
  {
    var c, k := Conditions(ctx), Rank(reason);
    assert (forall i :: 0 <= i < k ==> c[i]) ==>
      && (k > 0 ==> c[0]) && (k > 1 ==> c[1]) && (k > 2 ==> c[2]) && (k > 3 ==> c[3])
      && (k > 4 ==> c[4]) && (k > 5 ==> c[5]) && (k > 6 ==> c[6]);
  }

  /** A treatment is refused only for a rate that is not between nothing and the whole, in basis points. */
  lemma ResolvedIff(ctx: SaleContext)
    ensures Resolve(ctx) == Err(BadRate) <==> ctx.standardRateBp < 0 || 10000 < ctx.standardRateBp
    ensures Resolve(ctx).Err? ==> Resolve(ctx).error == BadRate
  {
    hide RefusalReason, AnyReverse, AllReverse;
  }


  // ---------------------------------------------------------------- totals by category

  /** `lineTotalsForCategory`. */
  function CategoryTotals(price: int, quantity: int, rateBp: int, category: Category, discount: int): Result<LineTotals, TaxError> {
    match LineError(price, quantity, discount)
    case Some(e) => Err(e)
    case None =>
      var gross := Inclusive(price, quantity, discount);
      if category.S? || category.AE? then
        if !RateOk(rateBp) then Err(BadRate)
        else
          var net := gross - Vat(gross, rateBp);
          Ok(if category.S? then LineTotals(gross, Vat(gross, rateBp), net) else LineTotals(net, 0, net))
      else Ok(LineTotals(gross, 0, gross))
  }

  /** A standard line is the same whichever function prices it. */
  lemma StandardIsLineTotals(price: int, quantity: int, rateBp: int, discount: int)
    ensures CategoryTotals(price, quantity, rateBp, S, discount) == LineTotalsOf(price, quantity, rateBp, discount)
  {
  }

  /** Reverse charge is a cheaper invoice: the buyer pays the net of the standard line, cheaper by its VAT. */
  lemma ReverseChargePaysTheNet(price: int, quantity: int, rateBp: int, discount: int)
    requires CategoryTotals(price, quantity, rateBp, S, discount).Ok?
    ensures var standard := CategoryTotals(price, quantity, rateBp, S, discount).value;
      && CategoryTotals(price, quantity, rateBp, AE, discount) == Ok(LineTotals(standard.net, 0, standard.net))
      && standard.net == standard.gross - standard.tax && 0 <= standard.net
  {
    VatIsNearest(Inclusive(price, quantity, discount), rateBp);
  }

  /** A line that carries no VAT is refused as a standard one would be, whatever the rate, and otherwise costs its gross. */
  lemma UntaxedLineSays(price: int, quantity: int, rateBp: int, category: Category, discount: int)
    requires category in {Z, E, O}
    ensures var r := CategoryTotals(price, quantity, rateBp, category, discount);
      var standard := CategoryTotals(price, quantity, 0, S, discount);
      if standard.Err? then r == standard else r == Ok(LineTotals(standard.value.gross, 0, standard.value.gross))
  {
    hide Inclusive;
  }

  datatype Item = Item(price: int, quantity: int, discount: int, line: TaxLine)

  function TaxLines(items: seq<Item>): (r: seq<TaxLine>)
    ensures |r| == |items| && forall i :: 0 <= i < |r| ==> r[i] == items[i].line
  {
    if items == [] then [] else TaxLines(items[..|items| - 1]) + [items[|items| - 1].line]
  }

  function ItemTotals(item: Item, rateBp: int, category: Category): Result<LineTotals, TaxError> {
    CategoryTotals(item.price, item.quantity, rateBp, category, item.discount)
  }

  /** Price every item by the category its line was given; the first bad line fails the sale. */
  function Computed(items: seq<Item>, treatments: seq<LineTreatment>, rateBp: int): Result<seq<LineTotals>, TaxError>
    requires |items| == |treatments|
  {
    if items == [] then Ok([])
    else
      var n := |items| - 1;
      match Computed(items[..n], treatments[..n], rateBp)
      case Err(e) => Err(e)
      case Ok(front) =>
        match ItemTotals(items[n], rateBp, treatments[n].category)
        case Err(e) => Err(e)
        case Ok(last) => Ok(front + [last])
  }

  lemma {:induction false} ComputedStep(items: seq<Item>, treatments: seq<LineTreatment>, rateBp: int)
    requires |items| == |treatments| > 0 && Computed(items, treatments, rateBp).Ok?
    ensures var n := |items| - 1;
      var front, last := Computed(items[..n], treatments[..n], rateBp), ItemTotals(items[n], rateBp, treatments[n].category);
      front.Ok? && last.Ok? && Computed(items, treatments, rateBp).value == front.value + [last.value]
  {
    hide ItemTotals;
  }

  /** A line adds up, and carries no tax unless it is standard rated at a positive rate. */
  predicate LineOk(l: LineTotals, category: Category, rateBp: int) {
    && l.net + l.tax == l.gross && 0 <= l.tax && 0 <= l.net
    && (category != S || rateBp == 0 ==> l.tax == 0)
  }

  lemma ItemLineOk(item: Item, rateBp: int, category: Category)
    requires RateOk(rateBp) && ItemTotals(item, rateBp, category).Ok?
    ensures LineOk(ItemTotals(item, rateBp, category).value, category, rateBp)
  {
    var gross := Inclusive(item.price, item.quantity, item.discount);
    VatIsNearest(gross, rateBp);
    if rateBp == 0 {
      assert gross * rateBp == 0;
      HalfUpExact(0, 10000);
    }
  }

  /** What standard-rated lines would owe, scaled by 10000 plus the rate. */
  ghost function ExactVat(items: seq<Item>, treatments: seq<LineTreatment>, rateBp: nat): int
    requires |items| == |treatments|
  {
    if items == [] then 0
    else
      var n := |items| - 1;
      var last := items[n];
      ExactVat(items[..n], treatments[..n], rateBp)
      + (if treatments[n].category == S then Inclusive(last.price, last.quantity, last.discount) * rateBp else 0)
  }

  ghost function StandardCount(treatments: seq<LineTreatment>): nat {
    if treatments == [] then 0
    else
      var n := |treatments| - 1;
      StandardCount(treatments[..n]) + (if treatments[n].category == S then 1 else 0)
  }

  lemma LineVatNear(item: Item, rateBp: nat, category: Category)
    requires RateOk(rateBp) && ItemTotals(item, rateBp, category).Ok?
    ensures category == S ==>
      Near(Inclusive(item.price, item.quantity, item.discount) * rateBp,
           (10000 + rateBp) * ItemTotals(item, rateBp, category).value.tax, 10000 + rateBp)
    ensures category != S ==> ItemTotals(item, rateBp, category).value.tax == 0
  {
    if category == S {
      VatIsNearest(Inclusive(item.price, item.quantity, item.discount), rateBp);
    }
  }

  lemma NearStep(exact: int, more: int, p: int, sum: int, tax: int, k: int)
    requires Near(exact, p * sum, k * p) && Near(more, p * tax, p)
    ensures Near(exact + more, p * (sum + tax), (k + 1) * p)
  {
    Distribute(p, sum, tax);
    Distribute(p, k, 1);
  }

  /** Per-line rounding costs at most half a unit for each standard-rated line. */
  lemma {:induction false} TotalVatIsNear(items: seq<Item>, treatments: seq<LineTreatment>, rateBp: nat)
    requires |items| == |treatments| && RateOk(rateBp) && Computed(items, treatments, rateBp).Ok?
    ensures |Computed(items, treatments, rateBp).value| == |items|
    ensures Near(ExactVat(items, treatments, rateBp),
                 (10000 + rateBp) * TaxSum(Computed(items, treatments, rateBp).value),
                 StandardCount(treatments) * (10000 + rateBp))
  {
    hide Near, ItemTotals, Inclusive;
    if items == [] {
      NothingOwed(10000 + rateBp);
    } else {
      var n := |items| - 1;
      ComputedStep(items, treatments, rateBp);
      TotalVatIsNear(items[..n], treatments[..n], rateBp);
      LineVatNear(items[n], rateBp, treatments[n].category);
      var front := Computed(items[..n], treatments[..n], rateBp).value;
      AnotherLine(front, ItemTotals(items[n], rateBp, treatments[n].category).value);
      OneMoreLine(items, treatments, rateBp, TaxSum(front));
    }
  }

  lemma {:induction false} AnotherLine(front: seq<LineTotals>, line: LineTotals)
    ensures TaxSum(front + [line]) == TaxSum(front) + line.tax
  {
    assert (front + [line])[..|front|] == front;
  }

  lemma {:induction false} OneMoreLine(items: seq<Item>, treatments: seq<LineTreatment>, rateBp: nat, sum: int)
    requires |items| == |treatments| > 0 && RateOk(rateBp)
    requires ItemTotals(items[|items| - 1], rateBp, treatments[|items| - 1].category).Ok?
    requires var n := |items| - 1;
      Near(ExactVat(items[..n], treatments[..n], rateBp), (10000 + rateBp) * sum, StandardCount(treatments[..n]) * (10000 + rateBp))
    ensures var n := |items| - 1;
      Near(ExactVat(items, treatments, rateBp),
           (10000 + rateBp) * (sum + ItemTotals(items[n], rateBp, treatments[n].category).value.tax),
           StandardCount(treatments) * (10000 + rateBp))
  {
    hide Near, ItemTotals, Inclusive;
    var n := |items| - 1;
    var last := items[n];
    LineVatNear(last, rateBp, treatments[n].category);
    if treatments[n].category == S {
      NearStep(ExactVat(items[..n], treatments[..n], rateBp), Inclusive(last.price, last.quantity, last.discount) * rateBp,
               10000 + rateBp, sum, ItemTotals(last, rateBp, S).value.tax, StandardCount(treatments[..n]));
    }
  }

  lemma NothingOwed(p: nat)
    ensures Near(0, p * TaxSum([]), 0 * p)
  {
  }

  /** Every priced line adds up and is taxed by its category. */
  lemma {:induction false} ComputedLines(items: seq<Item>, treatments: seq<LineTreatment>, rateBp: int)
    requires |items| == |treatments| && RateOk(rateBp) && Computed(items, treatments, rateBp).Ok?
    ensures var lines := Computed(items, treatments, rateBp).value;
      && |lines| == |items|
      && forall i :: 0 <= i < |lines| ==> LineOk(lines[i], treatments[i].category, rateBp)
  {
    hide LineOk, ItemTotals;
    if items != [] {
      var n := |items| - 1;
      ComputedLines(items[..n], treatments[..n], rateBp);
      ItemLineOk(items[n], rateBp, treatments[n].category);
      var lines := Computed(items, treatments, rateBp).value;
      var front := Computed(items[..n], treatments[..n], rateBp).value;
      assert lines == front + [ItemTotals(items[n], rateBp, treatments[n].category).value];
      forall i | 0 <= i < |lines| ensures LineOk(lines[i], treatments[i].category, rateBp) {
        if i < n {
          assert lines[i] == front[i] && treatments[..n][i] == treatments[i];
        }
      }
    }
  }

  datatype Priced = Priced(lines: seq<LineTotals>, totals: SaleTotals)

  /** The money side of a sale: resolve the treatment, price every line by it, and total. */
  function PriceSale(ctx: SaleContext, items: seq<Item>): Result<Priced, TaxError>
    requires ctx.lines == TaxLines(items)
  {
    match Resolve(ctx)
    case Err(e) => Err(e)
    case Ok(t) =>
      match Computed(items, t.lines, ctx.standardRateBp)
      case Err(e) => Err(e)
      case Ok(lines) => Ok(Priced(lines, SaleTotalsOf(lines)))
  }

  /** For any basket: lines and sale add up, and the VAT is within half a unit per standard line of the exact VAT. */
  lemma {:induction false} SaleAddsUp(ctx: SaleContext, items: seq<Item>)
    requires ctx.lines == TaxLines(items) && PriceSale(ctx, items).Ok?
    ensures Resolve(ctx).Ok? && RateOk(ctx.standardRateBp)
    ensures var Priced(lines, totals) := PriceSale(ctx, items).value;
      var t := Resolve(ctx).value;
      && |lines| == |items| == |t.lines|
      && (forall i :: 0 <= i < |lines| ==> LineOk(lines[i], t.lines[i].category, ctx.standardRateBp))
      && totals.total == GrossSum(lines) && totals.tax == TaxSum(lines) && totals.net + totals.tax == totals.total
      && 0 <= totals.tax <= totals.total
      && Near(ExactVat(items, t.lines, ctx.standardRateBp), (10000 + ctx.standardRateBp) * totals.tax,
              StandardCount(t.lines) * (10000 + ctx.standardRateBp))
  {
    hide Computed, LineOk, Near, ExactVat, StandardCount;
    var t := Resolve(ctx).value;
    ComputedLines(items, t.lines, ctx.standardRateBp);
    TotalVatIsNear(items, t.lines, ctx.standardRateBp);
    TaxWithinTotal(Computed(items, t.lines, ctx.standardRateBp).value, t.lines, ctx.standardRateBp);
  }

  lemma {:induction false} TaxWithinTotal(lines: seq<LineTotals>, treatments: seq<LineTreatment>, rateBp: int)
    requires |lines| == |treatments|
    requires forall i :: 0 <= i < |lines| ==> LineOk(lines[i], treatments[i].category, rateBp)
    ensures 0 <= TaxSum(lines) <= GrossSum(lines)
  {
    if lines != [] {
      var n := |lines| - 1;
      forall i | 0 <= i < n ensures LineOk(lines[..n][i], treatments[..n][i].category, rateBp) {
        assert LineOk(lines[i], treatments[i].category, rateBp);
      }
      TaxWithinTotal(lines[..n], treatments[..n], rateBp);
      assert LineOk(lines[n], treatments[n].category, rateBp);
    }
  }

  /** A fully reverse-charged sale carries no VAT at all. */
  lemma {:induction false} ReverseChargedSaleHasNoTax(ctx: SaleContext, items: seq<Item>)
    requires ctx.lines == TaxLines(items) && PriceSale(ctx, items).Ok?
    requires Resolve(ctx).value.kind == ReverseCharge
    ensures PriceSale(ctx, items).value.totals.tax == 0
  {
    hide Resolve, Computed, LineOk, Near;
    SaleAddsUp(ctx, items);
    KindIff(ctx);
    var t := Resolve(ctx).value;
    forall i | 0 <= i < |t.lines| ensures t.lines[i].category == AE {
      assert Reversed(t, i);
    }
    NoTaxWithoutStandard(PriceSale(ctx, items).value.lines, t.lines, ctx.standardRateBp);
  }

  lemma {:induction false} NoTaxWithoutStandard(lines: seq<LineTotals>, treatments: seq<LineTreatment>, rateBp: int)
    requires |lines| == |treatments|
    requires forall i :: 0 <= i < |lines| ==> LineOk(lines[i], treatments[i].category, rateBp)
    requires forall i :: 0 <= i < |treatments| ==> treatments[i].category == AE
    ensures TaxSum(lines) == 0
  {
    if lines != [] {
      var n := |lines| - 1;
      forall i | 0 <= i < n
        ensures LineOk(lines[..n][i], treatments[..n][i].category, rateBp) && treatments[..n][i].category == AE
      {
        assert LineOk(lines[i], treatments[i].category, rateBp);
      }
      NoTaxWithoutStandard(lines[..n], treatments[..n], rateBp);
      assert LineOk(lines[n], treatments[n].category, rateBp);
    }
  }
}
