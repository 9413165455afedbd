/** The e-invoice model built from a receipt, its structural validation, and the amounts it prints. */
module EInvoice {
  import opened Common
  import opened DecimalMoney
  import opened Digits
  import opened Rounding
  import Tax

  /** Quantities in thousandths; the total includes the tax. */
  datatype ReceiptLine = ReceiptLine(quantity: int, tax: int, total: int)

  datatype Receipt = Receipt(currency: string, sellerTrn: string, vatRateBp: int, lines: seq<ReceiptLine>, tax: int, total: int)

  datatype InvoiceLine = InvoiceLine(unitPriceNet: string, lineNet: string, lineNetMinor: int, lineVat: string, lineVatMinor: int)

  datatype Invoice = Invoice(
    currency: string, sellerTrn: string, buyerTrn: string, lines: seq<InvoiceLine>,
    taxAmount: string, taxAmountMinor: int,
    taxExclusiveAmount: string, taxExclusiveMinor: int,
    taxInclusiveAmount: string, taxInclusiveMinor: int,
    payableAmount: string, payableMinor: int)

  datatype BuildError = BadRate | BadQuantity

  /** `unitNetMinor`: exact where the net divides, else to the nearest. */
  function UnitNet(net: int, quantity: int): int
    requires quantity > 0
  {
    if quantity % 1000 == 0 && net % (quantity / 1000) == 0 then net / (quantity / 1000)
    else HalfUp(net * 1000, quantity)
  }

  function BuiltLine(l: ReceiptLine): InvoiceLine
    requires l.quantity > 0
  {
    var net := l.total - l.tax;
    InvoiceLine(FilsToDecimal(UnitNet(net, l.quantity)), FilsToDecimal(net), net, FilsToDecimal(l.tax), l.tax)
  }

  function BuiltLines(lines: seq<ReceiptLine>): Result<seq<InvoiceLine>, BuildError> {
    if lines == [] then Ok([])
    else
      match BuiltLines(lines[..|lines| - 1])
      case Err(e) => Err(e)
      case Ok(front) =>
        var last := lines[|lines| - 1];
        if last.quantity <= 0 then Err(BadQuantity) else Ok(front + [BuiltLine(last)])
  }

  /** `buildEInvoiceModel`; a missing registration number is the empty string. */
  function Build(r: Receipt, buyerTrn: string): Result<Invoice, BuildError> {
    if r.vatRateBp < 0 then Err(BadRate)
    else
      match BuiltLines(r.lines)
      case Err(e) => Err(e)
      case Ok(lines) =>
        Ok(Invoice(r.currency, r.sellerTrn, buyerTrn, lines,
                   FilsToDecimal(r.tax), r.tax,
                   FilsToDecimal(r.total - r.tax), r.total - r.tax,
                   FilsToDecimal(r.total), r.total,
                   FilsToDecimal(r.total), r.total))
  }

  // ---------------------------------------------------------------- validation

  datatype ModelError = NetsDoNotSum | VatDoesNotSum | TotalsDoNotAdd | PayableDiffers
    | BadCurrency | BadSellerTrn | BadBuyerTrn

  function NetSum(lines: seq<InvoiceLine>): int {
    if lines == [] then 0 else NetSum(lines[..|lines| - 1]) + lines[|lines| - 1].lineNetMinor
  }

  function VatSum(lines: seq<InvoiceLine>): int {
    if lines == [] then 0 else VatSum(lines[..|lines| - 1]) + lines[|lines| - 1].lineVatMinor
  }

  /** `/^[A-Z]{3}$/`. */
  predicate CurrencyOk(s: string) {
    |s| == 3 && forall i :: 0 <= i < |s| ==> 'A' <= s[i] <= 'Z'
  }

  /** `/^\d{15}$/`. */
  predicate TrnOk(s: string) {
    |s| == 15 && AllDigits(s)
  }

  /** What each check of `validateModel` tests. */
  predicate Faulty(inv: Invoice, e: ModelError) {
    match e
    case NetsDoNotSum => NetSum(inv.lines) != inv.taxExclusiveMinor
    case VatDoesNotSum => VatSum(inv.lines) != inv.taxAmountMinor
    case TotalsDoNotAdd => inv.taxExclusiveMinor + inv.taxAmountMinor != inv.taxInclusiveMinor
    case PayableDiffers => inv.payableMinor != inv.taxInclusiveMinor
    case BadCurrency => !CurrencyOk(inv.currency)
    case BadSellerTrn => inv.sellerTrn != "" && !TrnOk(inv.sellerTrn)
    case BadBuyerTrn => inv.buyerTrn != "" && !TrnOk(inv.buyerTrn)
  }

  const CHECKS: seq<ModelError> :=
    [NetsDoNotSum, VatDoesNotSum, TotalsDoNotAdd, PayableDiffers, BadCurrency, BadSellerTrn, BadBuyerTrn]

  function FaultsAmong(inv: Invoice, checks: seq<ModelError>): seq<ModelError> {
    if checks == [] then []
    else
      var front, last := FaultsAmong(inv, checks[..|checks| - 1]), checks[|checks| - 1];
      if Faulty(inv, last) then front + [last] else front
  }

  /** The errors of `validateModel`: each check in turn. */
  function Errors(inv: Invoice): seq<ModelError> {
    FaultsAmong(inv, CHECKS)
  }

  ghost predicate Arithmetic(e: ModelError) {
    e in [NetsDoNotSum, VatDoesNotSum, TotalsDoNotAdd, PayableDiffers]
  }

  ghost function ReceiptTax(lines: seq<ReceiptLine>): int {
    if lines == [] then 0 else ReceiptTax(lines[..|lines| - 1]) + lines[|lines| - 1].tax
  }

  ghost function ReceiptTotal(lines: seq<ReceiptLine>): int {
    if lines == [] then 0 else ReceiptTotal(lines[..|lines| - 1]) + lines[|lines| - 1].total
  }

  ghost predicate QuantitiesOk(lines: seq<ReceiptLine>) {
    forall i :: 0 <= i < |lines| ==> lines[i].quantity > 0
  }

  lemma {:induction false} BuiltSums(lines: seq<ReceiptLine>)
    ensures BuiltLines(lines).Ok? <==> QuantitiesOk(lines)
    ensures BuiltLines(lines).Ok? ==>
      && NetSum(BuiltLines(lines).value) == ReceiptTotal(lines) - ReceiptTax(lines)
      && VatSum(BuiltLines(lines).value) == ReceiptTax(lines)
  {
    hide UnitNet, FilsToDecimal;
    if lines != [] {
      var front, last := lines[..|lines| - 1], lines[|lines| - 1];
      BuiltSums(front);
      assert QuantitiesOk(lines) <==> QuantitiesOk(front) && last.quantity > 0 by {
        assert lines == front + [last];
      }
      if BuiltLines(lines).Ok? {
        assert BuiltLines(lines).value[..|BuiltLines(lines).value| - 1] == BuiltLines(front).value;
      }
    }
  }

  lemma {:induction false} FaultIn(inv: Invoice, checks: seq<ModelError>, e: ModelError)
    ensures e in FaultsAmong(inv, checks) <==> e in checks && Faulty(inv, e)
  {
    hide Faulty;
    if checks != [] {
      FaultIn(inv, checks[..|checks| - 1], e);
      assert checks == checks[..|checks| - 1] + [checks[|checks| - 1]];
    }
  }

  lemma EveryCheck(e: ModelError)
    ensures e in CHECKS
  {
    match e
    case NetsDoNotSum => assert CHECKS[0] == e;
    case VatDoesNotSum => assert CHECKS[1] == e;
    case TotalsDoNotAdd => assert CHECKS[2] == e;
    case PayableDiffers => assert CHECKS[3] == e;
    case BadCurrency => assert CHECKS[4] == e;
    case BadSellerTrn => assert CHECKS[5] == e;
    case BadBuyerTrn => assert CHECKS[6] == e;
  }

  /** Exactly the faults are reported. */
  lemma ReportedIff(inv: Invoice, e: ModelError)
    ensures e in Errors(inv) <==> Faulty(inv, e)
  {
    hide Faulty, FaultsAmong, CHECKS;
    EveryCheck(e);
    FaultIn(inv, CHECKS, e);
  }

  lemma ArithmeticOnes()
    ensures Arithmetic(NetsDoNotSum) && Arithmetic(VatDoesNotSum) && Arithmetic(TotalsDoNotAdd) && Arithmetic(PayableDiffers)
    ensures forall e :: Arithmetic(e) ==> e == NetsDoNotSum || e == VatDoesNotSum || e == TotalsDoNotAdd || e == PayableDiffers
    ensures forall e :: Arithmetic(e) || e == BadCurrency || e == BadSellerTrn || e == BadBuyerTrn
  {
    forall e ensures Arithmetic(e) || e == BadCurrency || e == BadSellerTrn || e == BadBuyerTrn {
      assert e.NetsDoNotSum? || e.VatDoesNotSum? || e.TotalsDoNotAdd? || e.PayableDiffers? ==> Arithmetic(e);
    }
  }

  /** A built invoice is arithmetically sound exactly when the receipt's lines add up to its totals. */
  lemma BuiltIsSoundIff(r: Receipt, buyerTrn: string)
    ensures Build(r, buyerTrn).Ok? <==> r.vatRateBp >= 0 && QuantitiesOk(r.lines)
    ensures Build(r, buyerTrn).Ok? ==>
      ((forall e :: e in Errors(Build(r, buyerTrn).value) ==> !Arithmetic(e)) <==>
        ReceiptTax(r.lines) == r.tax && ReceiptTotal(r.lines) == r.total)
  {
    hide FilsToDecimal, Errors, Arithmetic, NetSum, VatSum, ReceiptTax, ReceiptTotal, BuiltLines, QuantitiesOk;
    BuiltSums(r.lines);
    if Build(r, buyerTrn).Ok? {
      var inv := Build(r, buyerTrn).value;
      ReportedIff(inv, NetsDoNotSum);
      ReportedIff(inv, VatDoesNotSum);
      ReportedIff(inv, TotalsDoNotAdd);
      ReportedIff(inv, PayableDiffers);
      ArithmeticOnes();
    }
  }

  /** The errors about identities: a currency that is not three capital letters, a number given that is not fifteen digits. */
  lemma IdentityFaultsIff(inv: Invoice)
    ensures BadCurrency !in Errors(inv) <==> |inv.currency| == 3 && forall i :: 0 <= i < |inv.currency| ==> 'A' <= inv.currency[i] <= 'Z'
    ensures BadSellerTrn !in Errors(inv) <==>
      inv.sellerTrn == "" || (|inv.sellerTrn| == 15 && forall i :: 0 <= i < |inv.sellerTrn| ==> '0' <= inv.sellerTrn[i] <= '9')
    ensures BadBuyerTrn !in Errors(inv) <==>
      inv.buyerTrn == "" || (|inv.buyerTrn| == 15 && forall i :: 0 <= i < |inv.buyerTrn| ==> '0' <= inv.buyerTrn[i] <= '9')
  {
    ReportedIff(inv, BadCurrency);
    ReportedIff(inv, BadSellerTrn);
    ReportedIff(inv, BadBuyerTrn);
  }

  /** What building refuses, the rate before any line. */
  lemma BuildRefusalSays(r: Receipt, buyerTrn: string)
    ensures Build(r, buyerTrn) == Err(BadRate) <==> r.vatRateBp < 0
    ensures Build(r, buyerTrn) == Err(BadQuantity) <==> 0 <= r.vatRateBp && exists i :: 0 <= i < |r.lines| && r.lines[i].quantity <= 0
  {
    hide BuiltLines, FilsToDecimal;
    BuiltSums(r.lines);
    LineRefusalSays(r.lines);
  }

  lemma {:induction false} LineRefusalSays(lines: seq<ReceiptLine>)
    ensures BuiltLines(lines).Err? ==> BuiltLines(lines).error == BadQuantity
  {
    hide BuiltLine;
    if lines != [] {
      LineRefusalSays(lines[..|lines| - 1]);
    }
  }

  // ---------------------------------------------------------------- from a sale

  /** The receipt lines a priced sale leaves. */
  function ReceiptLines(items: seq<Tax.Item>, lines: seq<Tax.LineTotals>): seq<ReceiptLine>
    requires |items| == |lines|
  {
    if items == [] then []
    else
      var n := |items| - 1;
      ReceiptLines(items[..n], lines[..n]) + [ReceiptLine(items[n].quantity, lines[n].tax, lines[n].gross)]
  }

  function ReceiptOf(ctx: Tax.SaleContext, items: seq<Tax.Item>, priced: Tax.Priced, currency: string): Receipt
    requires |items| == |priced.lines|
  {
    Receipt(currency, ctx.supplierTrn, ctx.standardRateBp, ReceiptLines(items, priced.lines),
            priced.totals.tax, priced.totals.total)
  }

  /** Receipt lines that carry the totals of the priced lines. */
  ghost predicate Carries(items: seq<Tax.Item>, lines: seq<Tax.LineTotals>) {
    && |items| == |lines|
    && ReceiptTax(ReceiptLines(items, lines)) == Tax.TaxSum(lines)
    && ReceiptTotal(ReceiptLines(items, lines)) == Tax.GrossSum(lines)
    && QuantitiesOk(ReceiptLines(items, lines))
  }

  lemma NothingCarried()
    ensures Carries([], [])
  {
  }

  lemma {:induction false} ReceiptSums(items: seq<Tax.Item>, treatments: seq<Tax.LineTreatment>, rateBp: int)
    requires |items| == |treatments| && Tax.Computed(items, treatments, rateBp).Ok?
    ensures Carries(items, Tax.Computed(items, treatments, rateBp).value)
  {
    hide Carries, Tax.ItemTotals;
    if items == [] {
      NothingCarried();
    } else {
      hide Tax.Computed;
      var n := |items| - 1;
      Tax.ComputedStep(items, treatments, rateBp);
      ReceiptSums(items[..n], treatments[..n], rateBp);
      PricedQuantity(items[n], rateBp, treatments[n].category);
      CarriesPush(items[..n], Tax.Computed(items[..n], treatments[..n], rateBp).value, items[n],
                  Tax.ItemTotals(items[n], rateBp, treatments[n].category).value);
      assert items == items[..n] + [items[n]];
    }
  }

  lemma CarriesPush(items: seq<Tax.Item>, lines: seq<Tax.LineTotals>, item: Tax.Item, line: Tax.LineTotals)
    requires Carries(items, lines) && item.quantity > 0
    ensures Carries(items + [item], lines + [line])
  {
    hide ReceiptTax, ReceiptTotal, ReceiptLines, QuantitiesOk;
    AnotherReceiptLine(items, lines, item, line);
  }

  lemma PricedQuantity(item: Tax.Item, rateBp: int, category: Tax.Category)
    requires Tax.ItemTotals(item, rateBp, category).Ok?
    ensures item.quantity > 0
  {
    hide Tax.Inclusive, Tax.Vat;
  }

  lemma {:induction false} AnotherReceiptLine(items: seq<Tax.Item>, lines: seq<Tax.LineTotals>, item: Tax.Item, line: Tax.LineTotals)
    requires |items| == |lines|
    ensures var before, after := ReceiptLines(items, lines), ReceiptLines(items + [item], lines + [line]);
      && ReceiptTax(after) == ReceiptTax(before) + line.tax && ReceiptTotal(after) == ReceiptTotal(before) + line.gross
      && (QuantitiesOk(after) <==> QuantitiesOk(before) && item.quantity > 0)
    ensures Tax.TaxSum(lines + [line]) == Tax.TaxSum(lines) + line.tax
    ensures Tax.GrossSum(lines + [line]) == Tax.GrossSum(lines) + line.gross
  {
    assert (items + [item])[..|items|] == items && (lines + [line])[..|lines|] == lines;
    var before, after := ReceiptLines(items, lines), ReceiptLines(items + [item], lines + [line]);
    assert after == before + [ReceiptLine(item.quantity, line.tax, line.gross)];
    assert after[..|before|] == before;
    assert QuantitiesOk(after) ==> item.quantity > 0 by { assert after[|before|].quantity == item.quantity; }
    assert QuantitiesOk(after) ==> QuantitiesOk(before) by { assert forall i :: 0 <= i < |before| ==> after[i] == before[i]; }
  }

  /** Any sale that could be priced, whatever its mix of categories and discounts, gives an arithmetically sound invoice. */
  lemma {:induction false} SaleInvoiceIsSound(ctx: Tax.SaleContext, items: seq<Tax.Item>, currency: string, buyerTrn: string)
    requires ctx.lines == Tax.TaxLines(items) && Tax.PriceSale(ctx, items).Ok?
    ensures var priced := Tax.PriceSale(ctx, items).value;
      && |priced.lines| == |items|
      && var built := Build(ReceiptOf(ctx, items, priced, currency), buyerTrn);
         && built.Ok?
         && (forall e :: e in Errors(built.value) ==> !Arithmetic(e))
         && (Errors(built.value) == [] <==>
             CurrencyOk(currency) && (ctx.supplierTrn == "" || TrnOk(ctx.supplierTrn)) && (buyerTrn == "" || TrnOk(buyerTrn)))
  {
    hide Tax.Computed, Build, Errors, ReceiptLines, ReceiptTax, ReceiptTotal, Arithmetic;
    var t := Tax.Resolve(ctx).value;
    ReceiptSums(items, t.lines, ctx.standardRateBp);
    var receipt := ReceiptOf(ctx, items, Tax.PriceSale(ctx, items).value, currency);
    BuiltIsSoundIff(receipt, buyerTrn);
    OtherErrorsIff(receipt, buyerTrn);
  }

  /** Without arithmetic errors, only the currency and the registration numbers can be at fault. */
  lemma OtherErrorsIff(r: Receipt, buyerTrn: string)
    requires Build(r, buyerTrn).Ok?
    requires forall e :: e in Errors(Build(r, buyerTrn).value) ==> !Arithmetic(e)
    ensures Errors(Build(r, buyerTrn).value) == [] <==>
      CurrencyOk(r.currency) && (r.sellerTrn == "" || TrnOk(r.sellerTrn)) && (buyerTrn == "" || TrnOk(buyerTrn))
  {
    hide FilsToDecimal, Errors, Arithmetic, CurrencyOk, TrnOk, BuiltLines;
    var inv := Build(r, buyerTrn).value;
    var errors := Errors(inv);
    ReportedIff(inv, BadCurrency);
    ReportedIff(inv, BadSellerTrn);
    ReportedIff(inv, BadBuyerTrn);
    ArithmeticOnes();
    if errors != [] {
      assert errors[0] in errors;
    }
  }

  // ---------------------------------------------------------------- the printed document

  ghost function PrintedNets(lines: seq<InvoiceLine>): int {
    if lines == [] then 0 else PrintedNets(lines[..|lines| - 1]) + SallaMinor(lines[|lines| - 1].lineNet)
  }

  ghost function PrintedVats(lines: seq<InvoiceLine>): int {
    if lines == [] then 0 else PrintedVats(lines[..|lines| - 1]) + SallaMinor(lines[|lines| - 1].lineVat)
  }

  lemma {:induction false} PrintedLines(lines: seq<ReceiptLine>)
    requires BuiltLines(lines).Ok?
    ensures var built := BuiltLines(lines).value;
      PrintedNets(built) == NetSum(built) && PrintedVats(built) == VatSum(built)
  {
    hide SallaMinor, FilsToDecimal, UnitNet;
    if lines != [] {
      var front, last := lines[..|lines| - 1], lines[|lines| - 1];
      PrintedLines(front);
      ParsersUndoFils(last.total - last.tax);
      ParsersUndoFils(last.tax);
      var built := BuiltLines(lines).value;
      assert built[..|built| - 1] == BuiltLines(front).value;
    }
  }

  /**
   * Reading the printed decimals back, a built invoice adds up as a document: net plus tax is the
   * inclusive and the payable amount, and the line columns add up to the totals whenever the receipt does.
   */
  lemma PrintedInvoiceAddsUp(r: Receipt, buyerTrn: string)
    requires Build(r, buyerTrn).Ok?
    ensures var inv := Build(r, buyerTrn).value;
      && SallaMinor(inv.taxExclusiveAmount) + SallaMinor(inv.taxAmount) == SallaMinor(inv.taxInclusiveAmount)
      && inv.payableAmount == inv.taxInclusiveAmount
      && (PrintedNets(inv.lines) == SallaMinor(inv.taxExclusiveAmount) && PrintedVats(inv.lines) == SallaMinor(inv.taxAmount)
          <==> ReceiptTax(r.lines) == r.tax && ReceiptTotal(r.lines) == r.total)
  {
    hide SallaMinor, ZidMinor, FilsToDecimal, BuiltLines, NetSum, VatSum, PrintedNets, PrintedVats, ReceiptTax, ReceiptTotal;
    PrintedLines(r.lines);
    BuiltSums(r.lines);
    ParsersUndoFils(r.tax);
    ParsersUndoFils(r.total);
    ParsersUndoFils(r.total - r.tax);
  }

  lemma ExactUnit(net: int, whole: nat)
    requires whole > 0 && net % whole == 0
    ensures whole * (net / whole) == net
  {
  }

  /** The net unit price times the quantity comes within half a unit per item of the line net. */
  lemma UnitNetIsNear(net: int, quantity: int)
    requires quantity > 0
    ensures -quantity <= 2 * (quantity * UnitNet(net, quantity) - 1000 * net) <= quantity
  {
    if quantity % 1000 == 0 && net % (quantity / 1000) == 0 {
      ExactUnit(net, quantity / 1000);
      Thousand(quantity / 1000, net / (quantity / 1000));
    } else {
      HalfUpNear(net * 1000, quantity);
    }
  }

  lemma Thousand(w: int, x: int)
    ensures (1000 * w) * x == 1000 * (w * x)
  {
  }
}
