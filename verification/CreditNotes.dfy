/** Tax credit notes: pro-rated from the invoiced amounts, numbered without gaps, committed or rolled back whole. */
module CreditNotes {
  import opened Common
  import opened DecimalMoney
  import opened Digits
  import opened Rounding

  type Id = string

  /** An invoiced line; quantities in thousandths. */
  datatype OrderLine = OrderLine(id: Id, quantity: int, tax: int, total: int, category: string, rateBp: int)

  datatype Invoice = Invoice(total: int, treatment: string, lines: seq<OrderLine>)

  datatype Wanted = Wanted(line: Id, quantity: int)

  datatype CreditLine = CreditLine(source: OrderLine, quantity: int, tax: int, total: int)

  datatype CreditError = OrderNotFound | NothingToCredit | ExceedsInvoice | CheckFailed | RolledBack

  /** The committed tables: the counter, the notes, and their lines. */
  datatype Book = Book(lastNo: nat, heads: seq<Head>, rows: seq<Row>)

  datatype Head = Head(number: nat, noteNo: string, order: Id, total: int, tax: int, treatment: string)

  datatype Row = Row(number: nat, order: Id, line: CreditLine)

  const EMPTY: Book := Book(0, [], [])

  // ---------------------------------------------------------------- pro-rating

  function FindLine(lines: seq<OrderLine>, id: Id): (r: Option<OrderLine>)
    ensures r.Some? ==> r.value in lines && r.value.id == id
  {
    if lines == [] then None
    else if lines[|lines| - 1].id == id then Some(lines[|lines| - 1])
    else FindLine(lines[..|lines| - 1], id)
  }

  function WholeOf(lines: seq<OrderLine>): seq<Wanted> {
    if lines == [] then [] else WholeOf(lines[..|lines| - 1]) + [Wanted(lines[|lines| - 1].id, lines[|lines| - 1].quantity)]
  }

  /** The lines asked for; naming none means the whole invoice. */
  function Asked(invoice: Invoice, wanted: seq<Wanted>): seq<Wanted> {
    if wanted == [] then WholeOf(invoice.lines) else wanted
  }

  function CreditOne(lines: seq<OrderLine>, w: Wanted): Result<CreditLine, CreditError> {
    match FindLine(lines, w.line)
    case None => Err(NothingToCredit)
    case Some(source) =>
      if w.quantity <= 0 || w.quantity > source.quantity then Err(ExceedsInvoice)
      else Ok(CreditLine(source, w.quantity, Share(source.tax, w.quantity, source.quantity),
                         Share(source.total, w.quantity, source.quantity)))
  }

  /** Credit the lines in order; the first that cannot be credited fails the note. */
  function Credited(lines: seq<OrderLine>, wanted: seq<Wanted>): Result<seq<CreditLine>, CreditError> {
    if wanted == [] then Ok([])
    else
      match Credited(lines, wanted[..|wanted| - 1])
      case Err(e) => Err(e)
      case Ok(front) =>
        match CreditOne(lines, wanted[|wanted| - 1])
        case Err(e) => Err(e)
        case Ok(last) => Ok(front + [last])
  }

  function TotalSum(credits: seq<CreditLine>): int {
    if credits == [] then 0 else TotalSum(credits[..|credits| - 1]) + credits[|credits| - 1].total
  }

  function TaxSum(credits: seq<CreditLine>): int {
    if credits == [] then 0 else TaxSum(credits[..|credits| - 1]) + credits[|credits| - 1].tax
  }

  /** Everything `issueWith` checks before it writes. */
  function Drafted(invoices: map<Id, Invoice>, order: Id, wanted: seq<Wanted>): Result<seq<CreditLine>, CreditError> {
    if order !in invoices then Err(OrderNotFound)
    else if invoices[order].lines == [] then Err(NothingToCredit)
    else
      match Credited(invoices[order].lines, Asked(invoices[order], wanted))
      case Err(e) => Err(e)
      case Ok(credits) => if TotalSum(credits) > invoices[order].total then Err(ExceedsInvoice) else Ok(credits)
  }

  // ---------------------------------------------------------------- the transaction

  /** The CHECK constraints of a note line and of a note. */
  predicate RowAllowed(c: CreditLine) {
    c.quantity > 0 && (c.source.rateBp > 0 || c.tax == 0)
  }

  predicate Allowed(credits: seq<CreditLine>) {
    TotalSum(credits) >= 0 && TaxSum(credits) >= 0 && forall i :: 0 <= i < |credits| ==> RowAllowed(credits[i])
  }

  function NoteNo(n: nat): string {
    "CN-" + PadStart(Decimal(n), 6)
  }

  function RowsOf(number: nat, order: Id, credits: seq<CreditLine>): seq<Row> {
    if credits == [] then []
    else RowsOf(number, order, credits[..|credits| - 1]) + [Row(number, order, credits[|credits| - 1])]
  }

  /** `issueWith` and the end of the transaction it ran in. */
  function Issued(b: Book, invoices: map<Id, Invoice>, order: Id, wanted: seq<Wanted>, commits: bool): (Book, Result<nat, CreditError>) {
    match Drafted(invoices, order, wanted)
    case Err(e) => (b, Err(e))
    case Ok(credits) =>
      if !Allowed(credits) then (b, Err(CheckFailed))
      else if !commits then (b, Err(RolledBack))
      else
        var n := b.lastNo + 1;
        var head := Head(n, NoteNo(n), order, TotalSum(credits), TaxSum(credits), invoices[order].treatment);
        (Book(n, b.heads + [head], b.rows + RowsOf(n, order, credits)), Ok(n))
  }

  class CreditNoteTables {
    const invoices: map<Id, Invoice>
    var lastNo: nat
    var heads: seq<Head>
    var rows: seq<Row>

    function View(): Book
      reads this
    {
      Book(lastNo, heads, rows)
    }

    constructor (invoices: map<Id, Invoice>)
      ensures View() == EMPTY && this.invoices == invoices
    {
      this.invoices := invoices;
      lastNo, heads, rows := 0, [], [];
    }

    /** Insert the note lines one by one until one breaks a CHECK. */
    method InsertRows(number: nat, order: Id, credits: seq<CreditLine>) returns (ok: bool)
      modifies this`rows
      ensures ok <==> forall i :: 0 <= i < |credits| ==> RowAllowed(credits[i])
      ensures ok ==> rows == old(rows) + RowsOf(number, order, credits)
    {
      hide RowAllowed;
      ok := true;
      var i := 0;
      while i < |credits| && ok
        invariant 0 <= i <= |credits|
        invariant ok <==> forall j :: 0 <= j < i ==> RowAllowed(credits[j])
        invariant ok ==> rows == old(rows) + RowsOf(number, order, credits[..i])
      {
        if RowAllowed(credits[i]) {
          rows := rows + [Row(number, order, credits[i])];
          assert credits[..i + 1][..i] == credits[..i];
        } else {
          ok := false;
        }
        i := i + 1;
      }
      assert credits[..|credits|] == credits;
    }

    /** `issueWith`: the counter moves first; whatever fails afterwards puts it back with everything else. */
    method Issue(order: Id, wanted: seq<Wanted>, commits: bool) returns (r: Result<nat, CreditError>)
      modifies this
      ensures (View(), r) == Issued(old(View()), invoices, order, wanted, commits)
    {
      hide Drafted, RowAllowed, Decimal, NoteNo, TotalSum, TaxSum, RowsOf;
      var draft := Drafted(invoices, order, wanted);
      if draft.Err? {
        return Err(draft.error);
      }
      var credits := draft.value;
      DraftedOrder(invoices, order, wanted);
      var oldNo, oldHeads, oldRows := lastNo, heads, rows;
      lastNo := lastNo + 1;
      heads := heads + [Head(lastNo, NoteNo(lastNo), order, TotalSum(credits), TaxSum(credits), invoices[order].treatment)];
      var ok := TotalSum(credits) >= 0 && TaxSum(credits) >= 0;
      if ok {
        ok := InsertRows(lastNo, order, credits);
      }
      if !ok || !commits {
        lastNo, heads, rows := oldNo, oldHeads, oldRows;
        return Err(if !ok then CheckFailed else RolledBack);
      }
      return Ok(lastNo);
    }
  }

  lemma DraftedOrder(invoices: map<Id, Invoice>, order: Id, wanted: seq<Wanted>)
    requires Drafted(invoices, order, wanted).Ok?
    ensures order in invoices
  {
  }

  // ---------------------------------------------------------------- runs

  datatype Step = Issue(order: Id, wanted: seq<Wanted>, commits: bool)

  function Run(invoices: map<Id, Invoice>, steps: seq<Step>): Book {
    if steps == [] then EMPTY
    else
      var last := steps[|steps| - 1];
      Issued(Run(invoices, steps[..|steps| - 1]), invoices, last.order, last.wanted, last.commits).0
  }

  /** Numbered 1..n in order, whatever failed or rolled back in between. */
  ghost predicate Gapless(b: Book) {
    && b.lastNo == |b.heads|
    && forall i :: 0 <= i < |b.heads| ==> b.heads[i].number == i + 1 && b.heads[i].noteNo == NoteNo(i + 1)
  }

  lemma {:induction false} RunIsGapless(invoices: map<Id, Invoice>, steps: seq<Step>)
    ensures Gapless(Run(invoices, steps))
  {
    hide Drafted, Allowed, NoteNo;
    if steps != [] {
      RunIsGapless(invoices, steps[..|steps| - 1]);
    }
  }

  lemma {:induction false} PaddedValue(n: nat)
    ensures AllDigits(PadStart(Decimal(n), 6)) && Value(PadStart(Decimal(n), 6)) == n
  {
    var d := Decimal(n);
    ValueOfDecimal(n);
    if |d| < 6 {
      ValueZeros(6 - |d|);
      ValueAppend(Zeros(6 - |d|), d);
    }
  }

  /** No two committed notes carry the same printed number. */
  lemma {:induction false} NoteNumbersDiffer(invoices: map<Id, Invoice>, steps: seq<Step>, i: nat, j: nat)
    requires i < j < |Run(invoices, steps).heads|
    ensures Run(invoices, steps).heads[i].noteNo != Run(invoices, steps).heads[j].noteNo
  {
    hide Run, NoteNo;
    RunIsGapless(invoices, steps);
    DifferentNumbers(i + 1, j + 1);
  }

  /** A note number reads "CN-", then the number in at least six digits. */
  lemma NumberReads(n: nat)
    ensures var text := NoteNo(n);
      && |text| >= 9 && text[..3] == "CN-" && AllDigits(text[3..]) && Value(text[3..]) == n
      && (|text| > 9 ==> text[3] != '0')
  {
    hide Value;
    PaddedValue(n);
    assert NoteNo(n)[3..] == PadStart(Decimal(n), 6);
  }

  lemma DifferentNumbers(m: nat, n: nat)
    requires m != n
    ensures NoteNo(m) != NoteNo(n)
  {
    hide Decimal, PadStart, Value;
    PaddedValue(m);
    PaddedValue(n);
    assert NoteNo(m)[3..] == PadStart(Decimal(m), 6) && NoteNo(n)[3..] == PadStart(Decimal(n), 6);
  }

  // ---------------------------------------------------------------- one note against its invoice

  /** A credited line is a share of its own invoice line. */
  ghost predicate IsShare(lines: seq<OrderLine>, c: CreditLine) {
    && FindLine(lines, c.source.id) == Some(c.source)
    && 0 < c.quantity <= c.source.quantity
    && c.tax == Share(c.source.tax, c.quantity, c.source.quantity)
    && c.total == Share(c.source.total, c.quantity, c.source.quantity)
  }

  ghost predicate AllShares(lines: seq<OrderLine>, credits: seq<CreditLine>) {
    forall i :: 0 <= i < |credits| ==> IsShare(lines, credits[i])
  }

  lemma {:induction false} CreditedAreShares(lines: seq<OrderLine>, wanted: seq<Wanted>)
    requires Credited(lines, wanted).Ok?
    ensures AllShares(lines, Credited(lines, wanted).value) && |Credited(lines, wanted).value| == |wanted|
  {
    hide Share;
    if wanted != [] {
      CreditedAreShares(lines, wanted[..|wanted| - 1]);
    }
  }

  /** What the invoice itself promises of a line. */
  predicate Sound(l: OrderLine) {
    l.quantity > 0 && 0 <= l.tax <= l.total && (l.rateBp > 0 || l.tax == 0)
  }

  predicate SoundLines(lines: seq<OrderLine>) {
    forall i :: 0 <= i < |lines| ==> Sound(lines[i])
  }

  /** Tax never exceeds the credit it is part of, nor the credit its line, and untaxed lines credit no tax. */
  lemma ShareIsSound(lines: seq<OrderLine>, c: CreditLine)
    requires IsShare(lines, c) && Sound(c.source)
    ensures 0 <= c.tax <= c.total <= c.source.total && c.tax <= c.source.tax && RowAllowed(c)
  {
    var s := c.source;
    ShareGrows(s.tax, s.total, c.quantity, s.quantity);
    NothingShared(c.quantity, s.quantity);
    ShareGrows(0, s.tax, c.quantity, s.quantity);
    PartIsLess(s.total, c.quantity, s.quantity);
    PartIsLess(s.tax, c.quantity, s.quantity);
  }

  lemma NothingShared(part: nat, whole: nat)
    requires whole > 0
    ensures Share(0, part, whole) == 0
  {
    HalfUpExact(0, whole);
  }

  lemma PartIsLess(total: nat, part: nat, whole: nat)
    requires part <= whole && whole > 0
    ensures Share(total, part, whole) <= total
  {
    WholeShare(total, whole);
    Wider(part, whole, total);
    HalfUpMonotone(total * part, total * whole, whole);
  }

  lemma {:induction false} SharesAreSound(lines: seq<OrderLine>, credits: seq<CreditLine>)
    requires AllShares(lines, credits) && SoundLines(lines)
    ensures 0 <= TaxSum(credits) <= TotalSum(credits) && Allowed(credits)
  {
    hide IsShare, Share, Sound;
    if credits != [] {
      var front, last := credits[..|credits| - 1], credits[|credits| - 1];
      SharesAreSound(lines, front);
      SourceIsSound(lines, last);
      ShareIsSound(lines, last);
      forall i | 0 <= i < |credits| ensures RowAllowed(credits[i]) {
        assert i < |front| ==> credits[i] == front[i];
      }
    }
  }

  lemma SourceIsSound(lines: seq<OrderLine>, c: CreditLine)
    requires IsShare(lines, c) && SoundLines(lines)
    ensures Sound(c.source)
  {
    hide Sound, Share;
    var i :| 0 <= i < |lines| && lines[i] == c.source;
  }

  /** On a sound invoice a draft always passes the table checks: only the caller's rollback can stop it. */
  lemma SoundDraftCommits(b: Book, invoices: map<Id, Invoice>, order: Id, wanted: seq<Wanted>)
    requires Drafted(invoices, order, wanted).Ok? && SoundLines(invoices[order].lines)
    ensures var credits := Drafted(invoices, order, wanted).value;
      && Issued(b, invoices, order, wanted, true).1 == Ok(b.lastNo + 1)
      && 0 <= TaxSum(credits) <= TotalSum(credits) <= invoices[order].total
  {
    hide Credited, Allowed, Decimal;
    CreditedAreShares(invoices[order].lines, Asked(invoices[order], wanted));
    SharesAreSound(invoices[order].lines, Drafted(invoices, order, wanted).value);
  }

  /** A line of the note that cannot be credited: not on the invoice, or for nothing or for more than was invoiced. */
  ghost predicate CannotCredit(lines: seq<OrderLine>, w: Wanted) {
    FindLine(lines, w.line).None? || !(0 < w.quantity <= FindLine(lines, w.line).value.quantity)
  }

  lemma {:induction false} CreditedIff(lines: seq<OrderLine>, wanted: seq<Wanted>)
    ensures Credited(lines, wanted).Ok? <==> forall i :: 0 <= i < |wanted| ==> !CannotCredit(lines, wanted[i])
    ensures Credited(lines, wanted) == Err(NothingToCredit) ==>
      exists i :: 0 <= i < |wanted| && FindLine(lines, wanted[i].line).None?
    ensures Credited(lines, wanted) == Err(ExceedsInvoice) ==>
      exists i :: 0 <= i < |wanted| && FindLine(lines, wanted[i].line).Some?
                  && !(0 < wanted[i].quantity <= FindLine(lines, wanted[i].line).value.quantity)
    ensures Credited(lines, wanted).Err? ==> Credited(lines, wanted).error in {NothingToCredit, ExceedsInvoice}
    ensures Credited(lines, wanted).Ok? ==> CreditsAsked(Credited(lines, wanted).value, wanted)
  {
    hide FindLine, Share;
    if wanted != [] {
      var front := wanted[..|wanted| - 1];
      CreditedIff(lines, front);
      assert forall i :: 0 <= i < |front| ==> front[i] == wanted[i];
    }
  }

  /** The credits are what was asked for, in order. */
  predicate CreditsAsked(credits: seq<CreditLine>, wanted: seq<Wanted>) {
    && |credits| == |wanted|
    && forall i :: 0 <= i < |wanted| ==> credits[i].source.id == wanted[i].line && credits[i].quantity == wanted[i].quantity
  }

  lemma {:induction false} FindLineIff(lines: seq<OrderLine>, id: Id)
    ensures FindLine(lines, id).None? <==> forall i :: 0 <= i < |lines| ==> lines[i].id != id
  {
    if lines != [] {
      var front := lines[..|lines| - 1];
      FindLineIff(front, id);
      assert forall i :: 0 <= i < |front| ==> front[i] == lines[i];
    }
  }

  /**
   * A note on a sound invoice commits exactly when the invoice has lines, every line asked for is on
   * it within its quantity, their shares stay within its total, and the caller commits.
   */
  lemma IssuedIff(b: Book, invoices: map<Id, Invoice>, order: Id, wanted: seq<Wanted>, commits: bool)
    requires order in invoices ==> SoundLines(invoices[order].lines)
    ensures var r := Issued(b, invoices, order, wanted, commits);
      && (r.1.Ok? <==>
            && order in invoices && invoices[order].lines != [] && commits
            && (forall i :: 0 <= i < |Asked(invoices[order], wanted)| ==>
                  !CannotCredit(invoices[order].lines, Asked(invoices[order], wanted)[i]))
            && var credits := Credited(invoices[order].lines, Asked(invoices[order], wanted));
               credits.Ok? ==> TotalSum(credits.value) <= invoices[order].total)
      && (r.1.Err? ==> r.0 == b)
      && (r.1 == Err(OrderNotFound) <==> order !in invoices)
      && r.1 != Err(CheckFailed)
      && (r.1 == Err(RolledBack) ==> !commits)
  {
    hide Credited, Allowed, NoteNo, Asked, SoundLines, CannotCredit, RowsOf;
    if order in invoices {
      CreditedIff(invoices[order].lines, Asked(invoices[order], wanted));
      if Credited(invoices[order].lines, Asked(invoices[order], wanted)).Ok? {
        CreditedAreShares(invoices[order].lines, Asked(invoices[order], wanted));
        SharesAreSound(invoices[order].lines, Credited(invoices[order].lines, Asked(invoices[order], wanted)).value);
      }
    }
  }

  /** What the table checks refuse: a negative total or tax, or a line that carries tax at a rate that is not positive. */
  ghost predicate FailsChecks(credits: seq<CreditLine>) {
    || TotalSum(credits) < 0
    || TaxSum(credits) < 0
    || exists i :: 0 <= i < |credits| && credits[i].source.rateBp <= 0 && credits[i].tax != 0
  }

  lemma {:induction false} CreditedIsPositive(lines: seq<OrderLine>, wanted: seq<Wanted>, i: nat)
    requires Credited(lines, wanted).Ok? && i < |Credited(lines, wanted).value|
    ensures Credited(lines, wanted).value[i].quantity > 0
  {
    hide FindLine, Share;
    if wanted != [] {
      var front := wanted[..|wanted| - 1];
      if i < |Credited(lines, front).value| {
        CreditedIsPositive(lines, front, i);
      }
    }
  }

  /** Why a note on an existing invoice, sound or not, is refused; a refusal writes nothing. */
  lemma RefusalSays(b: Book, invoices: map<Id, Invoice>, order: Id, wanted: seq<Wanted>, commits: bool)
    requires order in invoices
    ensures var lines := invoices[order].lines;
      var credits := Credited(lines, Asked(invoices[order], wanted));
      var r := Issued(b, invoices, order, wanted, commits);
      && (lines == [] ==> r == (b, Err(NothingToCredit)))
      && (lines != [] && credits.Err? ==> r == (b, Err(credits.error)))
      && (lines != [] && credits.Ok? ==>
            if TotalSum(credits.value) > invoices[order].total then r == (b, Err(ExceedsInvoice))
            else if FailsChecks(credits.value) then r == (b, Err(CheckFailed))
            else if !commits then r == (b, Err(RolledBack))
            else r.1 == Ok(b.lastNo + 1))
  {
    hide Credited, Asked, TotalSum, TaxSum, NoteNo, RowsOf;
    var credits := Credited(invoices[order].lines, Asked(invoices[order], wanted));
    if credits.Ok? {
      forall i | 0 <= i < |credits.value| ensures credits.value[i].quantity > 0 {
        CreditedIsPositive(invoices[order].lines, Asked(invoices[order], wanted), i);
      }
    }
  }

  // ---------------------------------------------------------------- crediting the whole invoice

  ghost function LineTotals(lines: seq<OrderLine>): int {
    if lines == [] then 0 else LineTotals(lines[..|lines| - 1]) + lines[|lines| - 1].total
  }

  ghost function LineTaxes(lines: seq<OrderLine>): int {
    if lines == [] then 0 else LineTaxes(lines[..|lines| - 1]) + lines[|lines| - 1].tax
  }

  ghost predicate DistinctLines(lines: seq<OrderLine>) {
    forall i, j :: 0 <= i < j < |lines| ==> lines[i].id != lines[j].id
  }

  lemma {:induction false} FindsItself(lines: seq<OrderLine>, i: nat)
    requires DistinctLines(lines) && i < |lines|
    ensures FindLine(lines, lines[i].id) == Some(lines[i])
  {
    if i < |lines| - 1 {
      FindsItself(lines[..|lines| - 1], i);
    }
  }

  lemma {:induction false} WholePrefix(lines: seq<OrderLine>, k: nat)
    requires DistinctLines(lines) && SoundLines(lines) && k <= |lines|
    ensures var r := Credited(lines, WholeOf(lines[..k]));
      && r.Ok? && TotalSum(r.value) == LineTotals(lines[..k]) && TaxSum(r.value) == LineTaxes(lines[..k])
  {
    hide Share;
    if k > 0 {
      WholePrefix(lines, k - 1);
      assert lines[..k][..k - 1] == lines[..k - 1];
      var w := WholeOf(lines[..k]);
      assert w[..|w| - 1] == WholeOf(lines[..k - 1]) && w[|w| - 1] == Wanted(lines[k - 1].id, lines[k - 1].quantity);
      FindsItself(lines, k - 1);
      var l := lines[k - 1];
      assert Sound(l);
      WholeShare(l.total, l.quantity);
      WholeShare(l.tax, l.quantity);
      var front := Credited(lines, WholeOf(lines[..k - 1])).value;
      var all := Credited(lines, w).value;
      assert all[..|all| - 1] == front;
    }
  }

  /** A whole-invoice credit reproduces the invoiced total and VAT exactly, and is refused only if the lines exceed the head total. */
  lemma WholeCreditIsExact(invoices: map<Id, Invoice>, order: Id)
    requires order in invoices && invoices[order].lines != []
    requires DistinctLines(invoices[order].lines) && SoundLines(invoices[order].lines)
    ensures var invoice := invoices[order];
      var r := Drafted(invoices, order, []);
      && (r.Ok? <==> LineTotals(invoice.lines) <= invoice.total)
      && (r.Ok? ==> TotalSum(r.value) == LineTotals(invoice.lines) && TaxSum(r.value) == LineTaxes(invoice.lines))
  {
    var lines := invoices[order].lines;
    hide Credited, SoundLines, DistinctLines;
    WholePrefix(lines, |lines|);
    assert lines[..|lines|] == lines;
  }

  // ---------------------------------------------------------------- many notes against one line

  /** The committed lines of one order. */
  ghost function LinesFor(rows: seq<Row>, order: Id): seq<CreditLine> {
    if rows == [] then []
    else LinesFor(rows[..|rows| - 1], order) + (if rows[|rows| - 1].order == order then [rows[|rows| - 1].line] else [])
  }

  ghost function PartsOf(credits: seq<CreditLine>, line: Id): (parts: seq<nat>)
    requires forall i :: 0 <= i < |credits| ==> credits[i].quantity > 0
  {
    if credits == [] then []
    else
      PartsOf(credits[..|credits| - 1], line)
      + (if credits[|credits| - 1].source.id == line then [credits[|credits| - 1].quantity] else [])
  }

  ghost function TotalOf(credits: seq<CreditLine>, line: Id): int {
    if credits == [] then 0
    else
      TotalOf(credits[..|credits| - 1], line)
      + (if credits[|credits| - 1].source.id == line then credits[|credits| - 1].total else 0)
  }

  ghost function TaxOf(credits: seq<CreditLine>, line: Id): int {
    if credits == [] then 0
    else
      TaxOf(credits[..|credits| - 1], line)
      + (if credits[|credits| - 1].source.id == line then credits[|credits| - 1].tax else 0)
  }

  lemma {:induction false} CreditsAreShares(lines: seq<OrderLine>, credits: seq<CreditLine>, line: Id)
    requires AllShares(lines, credits) && FindLine(lines, line).Some? && FindLine(lines, line).value.quantity > 0
    ensures forall i :: 0 <= i < |credits| ==> credits[i].quantity > 0
    ensures var l := FindLine(lines, line).value;
      && TotalOf(credits, line) == Shares(l.total, PartsOf(credits, line), l.quantity)
      && TaxOf(credits, line) == Shares(l.tax, PartsOf(credits, line), l.quantity)
  {
    hide Share;
    if credits != [] {
      var front, last := credits[..|credits| - 1], credits[|credits| - 1];
      CreditsAreShares(lines, front, line);
      assert IsShare(lines, last);
      var parts := PartsOf(front, line);
      assert PartsOf(credits, line) == if last.source.id == line then parts + [last.quantity] else parts;
      if last.source.id == line {
        var l := FindLine(lines, line).value;
        SharesPush(l.total, PartsOf(front, line), last.quantity, l.quantity);
        SharesPush(l.tax, PartsOf(front, line), last.quantity, l.quantity);
      }
    }
  }

  lemma {:induction false} LinesForOneMore(rows: seq<Row>, row: Row, which: Id)
    ensures LinesFor(rows + [row], which) == LinesFor(rows, which) + (if row.order == which then [row.line] else [])
  {
    assert (rows + [row])[..|rows|] == rows;
  }

  lemma {:induction false} LinesForRows(rows: seq<Row>, number: nat, order: Id, credits: seq<CreditLine>, which: Id)
    ensures LinesFor(rows + RowsOf(number, order, credits), which) == LinesFor(rows, which) + (if which == order then credits else [])
  {
    hide LinesFor;
    if credits == [] {
      assert rows + RowsOf(number, order, credits) == rows;
    } else {
      var front, last := credits[..|credits| - 1], credits[|credits| - 1];
      var row := Row(number, order, last);
      LinesForRows(rows, number, order, front, which);
      LinesForOneMore(rows + RowsOf(number, order, front), row, which);
      assert rows + RowsOf(number, order, credits) == rows + RowsOf(number, order, front) + [row];
      assert credits == front + [last];
    }
  }

  /** In every reachable state every committed line is a share of its invoice line. */
  lemma {:induction false} CommittedAreShares(invoices: map<Id, Invoice>, steps: seq<Step>, order: Id)
    requires order in invoices
    ensures AllShares(invoices[order].lines, LinesFor(Run(invoices, steps).rows, order))
  {
    hide IsShare, Credited, Allowed, RowsOf, NoteNo;
    if steps != [] {
      var last := steps[|steps| - 1];
      var before := Run(invoices, steps[..|steps| - 1]);
      CommittedAreShares(invoices, steps[..|steps| - 1], order);
      if Issued(before, invoices, last.order, last.wanted, last.commits).1.Ok? {
        var credits := Drafted(invoices, last.order, last.wanted).value;
        CreditedAreShares(invoices[last.order].lines, Asked(invoices[last.order], last.wanted));
        LinesForRows(before.rows, before.lastNo + 1, last.order, credits, order);
      }
    }
  }

  /**
   * Over any run, once the k credits committed against a line add up to its invoiced quantity, the
   * credited total and VAT are each within k/2 minor units of the invoiced ones.
   */
  lemma {:induction false} CreditsDrift(invoices: map<Id, Invoice>, steps: seq<Step>, order: Id, line: Id)
    requires order in invoices
    requires FindLine(invoices[order].lines, line).Some? && FindLine(invoices[order].lines, line).value.quantity > 0
    ensures var l := FindLine(invoices[order].lines, line).value;
      var credits := LinesFor(Run(invoices, steps).rows, order);
      && (forall i :: 0 <= i < |credits| ==> credits[i].quantity > 0)
      && var parts := PartsOf(credits, line);
         PartSum(parts) == l.quantity ==>
           && -|parts| <= 2 * (TotalOf(credits, line) - l.total) <= |parts|
           && -|parts| <= 2 * (TaxOf(credits, line) - l.tax) <= |parts|
  {
    hide Run, LinesFor, IsShare, Shares;
    CommittedAreShares(invoices, steps, order);
    var l := FindLine(invoices[order].lines, line).value;
    var credits := LinesFor(Run(invoices, steps).rows, order);
    CreditsAreShares(invoices[order].lines, credits, line);
    var parts := PartsOf(credits, line);
    if PartSum(parts) == l.quantity {
      SharesDrift(l.total, parts, l.quantity);
      SharesDrift(l.tax, parts, l.quantity);
    }
  }

  // ---------------------------------------------------------------- when notes stay within the invoice

  /** The quantity credited of a line. */
  ghost function QuantityOf(credits: seq<CreditLine>, line: Id): int {
    if credits == [] then 0
    else
      QuantityOf(credits[..|credits| - 1], line)
      + (if credits[|credits| - 1].source.id == line then credits[|credits| - 1].quantity else 0)
  }

  /** How many credits a line has. */
  ghost function CountOf(credits: seq<CreditLine>, line: Id): nat {
    if credits == [] then 0
    else CountOf(credits[..|credits| - 1], line) + (if credits[|credits| - 1].source.id == line then 1 else 0)
  }

  lemma {:induction false} PartsAdd(credits: seq<CreditLine>, line: Id)
    requires forall i :: 0 <= i < |credits| ==> credits[i].quantity > 0
    ensures PartSum(PartsOf(credits, line)) == QuantityOf(credits, line) && |PartsOf(credits, line)| == CountOf(credits, line)
  {
    if credits != [] {
      var front, last := credits[..|credits| - 1], credits[|credits| - 1];
      PartsAdd(front, line);
      var parts := PartsOf(front, line);
      assert PartsOf(credits, line) == if last.source.id == line then parts + [last.quantity] else parts;
      assert (parts + [last.quantity])[..|parts|] == parts;
    }
  }

  /** One line, credited up to its quantity, exceeds its total and VAT by at most half a unit per credit. */
  lemma {:induction false} LineStaysWithin(lines: seq<OrderLine>, credits: seq<CreditLine>, i: nat)
    requires DistinctLines(lines) && SoundLines(lines) && AllShares(lines, credits) && i < |lines|
    requires QuantityOf(credits, lines[i].id) <= lines[i].quantity
    ensures 2 * (TotalOf(credits, lines[i].id) - lines[i].total) <= CountOf(credits, lines[i].id)
    ensures 2 * (TaxOf(credits, lines[i].id) - lines[i].tax) <= CountOf(credits, lines[i].id)
  {
    hide IsShare, Shares, TotalOf, TaxOf, QuantityOf, CountOf, PartSum;
    var l := lines[i];
    assert Sound(l);
    FindsItself(lines, i);
    CreditsAreShares(lines, credits, l.id);
    PartsAdd(credits, l.id);
    SharesWithin(l.total, PartsOf(credits, l.id), l.quantity);
    SharesWithin(l.tax, PartsOf(credits, l.id), l.quantity);
  }

  /** Sums over the first `n` invoice lines of what was credited of each. */
  ghost function TotalOver(lines: seq<OrderLine>, credits: seq<CreditLine>): int {
    if lines == [] then 0 else TotalOver(lines[..|lines| - 1], credits) + TotalOf(credits, lines[|lines| - 1].id)
  }

  ghost function TaxOver(lines: seq<OrderLine>, credits: seq<CreditLine>): int {
    if lines == [] then 0 else TaxOver(lines[..|lines| - 1], credits) + TaxOf(credits, lines[|lines| - 1].id)
  }

  ghost function CountOver(lines: seq<OrderLine>, credits: seq<CreditLine>): int {
    if lines == [] then 0 else CountOver(lines[..|lines| - 1], credits) + CountOf(credits, lines[|lines| - 1].id)
  }

  predicate HasLine(lines: seq<OrderLine>, id: Id) {
    lines != [] && (lines[|lines| - 1].id == id || HasLine(lines[..|lines| - 1], id))
  }

  lemma {:induction false} HasLineAt(lines: seq<OrderLine>, i: nat)
    requires i < |lines|
    ensures HasLine(lines, lines[i].id)
  {
    if i < |lines| - 1 {
      HasLineAt(lines[..|lines| - 1], i);
    }
  }

  lemma OtherLine(lines: seq<OrderLine>)
    requires lines != [] && DistinctLines(lines)
    ensures DistinctLines(lines[..|lines| - 1]) && !HasLine(lines[..|lines| - 1], lines[|lines| - 1].id)
  {
    var front, last := lines[..|lines| - 1], lines[|lines| - 1];
    assert DistinctLines(front) by {
      assert forall i :: 0 <= i < |front| ==> front[i] == lines[i];
    }
    LineAbsent(front, last.id);
  }

  lemma {:induction false} LineAbsent(lines: seq<OrderLine>, id: Id)
    requires forall i :: 0 <= i < |lines| ==> lines[i].id != id
    ensures !HasLine(lines, id)
  {
    if lines != [] {
      LineAbsent(lines[..|lines| - 1], id);
    }
  }

  lemma {:induction false} NothingOver(lines: seq<OrderLine>)
    ensures TotalOver(lines, []) == 0 && TaxOver(lines, []) == 0 && CountOver(lines, []) == 0
  {
    if lines != [] {
      NothingOver(lines[..|lines| - 1]);
    }
  }

  lemma {:induction false} OfPush(front: seq<CreditLine>, last: CreditLine, id: Id)
    ensures var all := front + [last]; var hit := last.source.id == id;
      && TotalOf(all, id) == TotalOf(front, id) + (if hit then last.total else 0)
      && TaxOf(all, id) == TaxOf(front, id) + (if hit then last.tax else 0)
      && CountOf(all, id) == CountOf(front, id) + (if hit then 1 else 0)
  {
    assert (front + [last])[..|front|] == front;
  }

  /** One more credit counts for exactly one invoice line. */
  lemma {:induction false} CreditCountsOnce(lines: seq<OrderLine>, front: seq<CreditLine>, last: CreditLine)
    requires DistinctLines(lines)
    ensures var all := front + [last]; var hit := HasLine(lines, last.source.id);
      && TotalOver(lines, all) == TotalOver(lines, front) + (if hit then last.total else 0)
      && TaxOver(lines, all) == TaxOver(lines, front) + (if hit then last.tax else 0)
      && CountOver(lines, all) == CountOver(lines, front) + (if hit then 1 else 0)
  {
    hide TotalOf, TaxOf, CountOf, DistinctLines;
    if lines != [] {
      OtherLine(lines);
      CreditCountsOnce(lines[..|lines| - 1], front, last);
      OfPush(front, last, lines[|lines| - 1].id);
    }
  }

  lemma {:induction false} SourceHasLine(lines: seq<OrderLine>, c: CreditLine)
    requires IsShare(lines, c)
    ensures HasLine(lines, c.source.id)
  {
    hide Share;
    var i :| 0 <= i < |lines| && lines[i] == c.source;
    HasLineAt(lines, i);
  }

  /** Line by line or credit by credit, the sums are the same. */
  lemma {:induction false} OverIsSum(lines: seq<OrderLine>, credits: seq<CreditLine>)
    requires DistinctLines(lines) && AllShares(lines, credits)
    ensures TotalOver(lines, credits) == TotalSum(credits) && TaxOver(lines, credits) == TaxSum(credits)
    ensures CountOver(lines, credits) == |credits|
  {
    hide IsShare, TotalOver, TaxOver, CountOver, DistinctLines;
    if credits == [] {
      NothingOver(lines);
    } else {
      var front, last := credits[..|credits| - 1], credits[|credits| - 1];
      OverIsSum(lines, front);
      CreditCountsOnce(lines, front, last);
      SourceHasLine(lines, last);
      assert credits == front + [last];
    }
  }

  ghost predicate WithinQuantities(lines: seq<OrderLine>, credits: seq<CreditLine>) {
    forall i :: 0 <= i < |lines| ==> QuantityOf(credits, lines[i].id) <= lines[i].quantity
  }

  lemma {:induction false} OverStaysWithin(lines: seq<OrderLine>, credits: seq<CreditLine>, n: nat)
    requires DistinctLines(lines) && SoundLines(lines) && AllShares(lines, credits) && n <= |lines|
    requires WithinQuantities(lines, credits)
    ensures 2 * (TotalOver(lines[..n], credits) - LineTotals(lines[..n])) <= CountOver(lines[..n], credits)
    ensures 2 * (TaxOver(lines[..n], credits) - LineTaxes(lines[..n])) <= CountOver(lines[..n], credits)
  {
    if n > 0 {
      hide DistinctLines, SoundLines, AllShares, TotalOf, TaxOf, CountOf, QuantityOf;
      OverStaysWithin(lines, credits, n - 1);
      LineStaysWithin(lines, credits, n - 1);
      assert lines[..n][..n - 1] == lines[..n - 1];
    }
  }

  /**
   * Over every run: while no line of the invoice is credited beyond its quantity, everything
   * committed against it exceeds its total and its VAT by at most half a unit per committed line.
   */
  lemma {:induction false} NotesStayWithin(invoices: map<Id, Invoice>, steps: seq<Step>, order: Id)
    requires order in invoices && DistinctLines(invoices[order].lines) && SoundLines(invoices[order].lines)
    requires WithinQuantities(invoices[order].lines, LinesFor(Run(invoices, steps).rows, order))
    ensures var lines := invoices[order].lines;
      var credits := LinesFor(Run(invoices, steps).rows, order);
      && 2 * (TotalSum(credits) - LineTotals(lines)) <= |credits|
      && 2 * (TaxSum(credits) - LineTaxes(lines)) <= |credits|
  {
    hide Run, LinesFor, DistinctLines, SoundLines, AllShares, WithinQuantities;
    var lines := invoices[order].lines;
    var credits := LinesFor(Run(invoices, steps).rows, order);
    CommittedAreShares(invoices, steps, order);
    OverIsSum(lines, credits);
    OverStaysWithin(lines, credits, |lines|);
    assert lines[..|lines|] == lines;
  }

  // ---------------------------------------------------------------- notes for the whole invoice

  /** How many notes the order has. */
  ghost function NotesFor(heads: seq<Head>, order: Id): nat {
    if heads == [] then 0 else NotesFor(heads[..|heads| - 1], order) + (if heads[|heads| - 1].order == order then 1 else 0)
  }

  /** Every note of the order asks for the whole invoice. */
  predicate WholeOnly(steps: seq<Step>, order: Id) {
    forall i :: 0 <= i < |steps| && steps[i].order == order ==> steps[i].wanted == []
  }

  lemma {:induction false} SumsAppend(a: seq<CreditLine>, b: seq<CreditLine>)
    ensures TotalSum(a + b) == TotalSum(a) + TotalSum(b) && TaxSum(a + b) == TaxSum(a) + TaxSum(b)
  {
    if b == [] {
      assert a + b == a;
    } else {
      SumsAppend(a, b[..|b| - 1]);
      assert (a + b)[..|a + b| - 1] == a + b[..|b| - 1];
    }
  }

  lemma {:induction false} NotesPush(heads: seq<Head>, h: Head, order: Id)
    ensures NotesFor(heads + [h], order) == NotesFor(heads, order) + (if h.order == order then 1 else 0)
  {
    assert (heads + [h])[..|heads|] == heads;
  }

  /** What is committed against the order is so many times the invoice. */
  ghost predicate Multiples(b: Book, invoice: Invoice, order: Id) {
    && TotalSum(LinesFor(b.rows, order)) == NotesFor(b.heads, order) * LineTotals(invoice.lines)
    && TaxSum(LinesFor(b.rows, order)) == NotesFor(b.heads, order) * LineTaxes(invoice.lines)
  }

  lemma WholeStepAdds(b: Book, invoices: map<Id, Invoice>, s: Step, order: Id)
    requires order in invoices && DistinctLines(invoices[order].lines) && SoundLines(invoices[order].lines)
    requires (s.order == order ==> s.wanted == []) && Multiples(b, invoices[order], order)
    ensures Multiples(Issued(b, invoices, s.order, s.wanted, s.commits).0, invoices[order], order)
  {
    hide Issued, TotalSum, TaxSum, LinesFor, NotesFor, DistinctLines, SoundLines, LineTotals, LineTaxes;
    WholeNoteAdds(b, invoices, s, order);
    OneMore(NotesFor(b.heads, order), LineTotals(invoices[order].lines));
    OneMore(NotesFor(b.heads, order), LineTaxes(invoices[order].lines));
  }

  lemma {:induction false} WholeTotalsAdd(invoices: map<Id, Invoice>, steps: seq<Step>, order: Id)
    requires order in invoices && DistinctLines(invoices[order].lines) && SoundLines(invoices[order].lines)
    requires WholeOnly(steps, order)
    ensures Multiples(Run(invoices, steps), invoices[order], order)
  {
    hide Issued, Multiples, DistinctLines, SoundLines;
    if steps == [] {
      NoNotes(invoices[order], order);
    } else {
      WholeTotalsAdd(invoices, steps[..|steps| - 1], order);
      WholeStepAdds(Run(invoices, steps[..|steps| - 1]), invoices, steps[|steps| - 1], order);
    }
  }

  lemma NoNotes(invoice: Invoice, order: Id)
    ensures Multiples(EMPTY, invoice, order)
  {
  }

  lemma OneMore(n: int, x: int)
    ensures (n + 1) * x == n * x + x
  {
  }

  lemma {:induction false} WholeNoteAdds(b: Book, invoices: map<Id, Invoice>, s: Step, order: Id)
    requires order in invoices && DistinctLines(invoices[order].lines) && SoundLines(invoices[order].lines)
    requires s.order == order ==> s.wanted == []
    ensures var after := Issued(b, invoices, s.order, s.wanted, s.commits).0;
      var more := if after != b && s.order == order then 1 else 0;
      && NotesFor(after.heads, order) == NotesFor(b.heads, order) + more
      && TotalSum(LinesFor(after.rows, order)) ==
         TotalSum(LinesFor(b.rows, order)) + (if more == 1 then LineTotals(invoices[order].lines) else 0)
      && TaxSum(LinesFor(after.rows, order)) ==
         TaxSum(LinesFor(b.rows, order)) + (if more == 1 then LineTaxes(invoices[order].lines) else 0)
  {
    hide Drafted, Allowed, NoteNo, RowsOf, LinesFor, NotesFor, TotalSum, TaxSum, LineTotals, LineTaxes, DistinctLines, SoundLines;
    var after := Issued(b, invoices, s.order, s.wanted, s.commits).0;
    if after != b {
      var credits := Drafted(invoices, s.order, s.wanted).value;
      LinesForRows(b.rows, b.lastNo + 1, s.order, credits, order);
      NotesPush(b.heads, after.heads[|b.heads|], order);
      assert LinesFor(b.rows, order) + [] == LinesFor(b.rows, order);
      if s.order == order {
        SumsAppend(LinesFor(b.rows, order), credits);
        WholeDraft(invoices, order);
      }
    }
  }

  lemma WholeDraft(invoices: map<Id, Invoice>, order: Id)
    requires order in invoices && DistinctLines(invoices[order].lines) && SoundLines(invoices[order].lines)
    requires Drafted(invoices, order, []).Ok?
    ensures TotalSum(Drafted(invoices, order, []).value) == LineTotals(invoices[order].lines)
    ensures TaxSum(Drafted(invoices, order, []).value) == LineTaxes(invoices[order].lines)
  {
    WholeCreditIsExact(invoices, order);
  }

  /** What is committed against one invoice line is `n` times that line. */
  ghost predicate TimesLine(credits: seq<CreditLine>, l: OrderLine, n: nat) {
    && QuantityOf(credits, l.id) == n * l.quantity
    && TotalOf(credits, l.id) == n * l.total
    && TaxOf(credits, l.id) == n * l.tax
  }

  lemma {:induction false} OfAppend(a: seq<CreditLine>, b: seq<CreditLine>, id: Id)
    ensures QuantityOf(a + b, id) == QuantityOf(a, id) + QuantityOf(b, id)
    ensures TotalOf(a + b, id) == TotalOf(a, id) + TotalOf(b, id) && TaxOf(a + b, id) == TaxOf(a, id) + TaxOf(b, id)
  {
    if b == [] {
      assert a + b == a;
    } else {
      OfAppend(a, b[..|b| - 1], id);
      assert (a + b)[..|a + b| - 1] == a + b[..|b| - 1];
    }
  }

  lemma OneMoreTime(credits: seq<CreditLine>, more: seq<CreditLine>, l: OrderLine, n: nat)
    requires TimesLine(credits, l, n) && TimesLine(more, l, 1)
    ensures TimesLine(credits + more, l, n + 1)
  {
    hide QuantityOf, TotalOf, TaxOf;
    OfAppend(credits, more, l.id);
    OneMore(n, l.quantity);
    OneMore(n, l.total);
    OneMore(n, l.tax);
  }

  /** Crediting the first `k` lines whole credits each of them once and no other. */
  lemma {:induction false} WholePrefixLine(lines: seq<OrderLine>, k: nat, i: nat)
    requires DistinctLines(lines) && SoundLines(lines) && k <= |lines| && i < |lines|
    ensures Credited(lines, WholeOf(lines[..k])).Ok?
    ensures TimesLine(Credited(lines, WholeOf(lines[..k])).value, lines[i], if i < k then 1 else 0)
  {
    if k > 0 {
      hide CreditOne, TimesLine;
      WholePrefixLine(lines, k - 1, i);
      assert lines[..k][..k - 1] == lines[..k - 1];
      var w, l := WholeOf(lines[..k]), lines[k - 1];
      assert w[..|w| - 1] == WholeOf(lines[..k - 1]) && w[|w| - 1] == Wanted(l.id, l.quantity);
      var front := Credited(lines, WholeOf(lines[..k - 1])).value;
      WholeLineIsItself(lines, k - 1);
      assert Credited(lines, w) == Ok(front + [Itself(l)]);
      OneMoreLine(front, l, lines[i], if i < k - 1 then 1 else 0);
    }
  }

  ghost function Itself(l: OrderLine): CreditLine {
    CreditLine(l, l.quantity, l.tax, l.total)
  }

  lemma WholeLineIsItself(lines: seq<OrderLine>, k: nat)
    requires DistinctLines(lines) && SoundLines(lines) && k < |lines|
    ensures CreditOne(lines, Wanted(lines[k].id, lines[k].quantity)) == Ok(Itself(lines[k]))
  {
    hide Share, DistinctLines;
    FindsItself(lines, k);
    assert Sound(lines[k]);
    WholeShare(lines[k].total, lines[k].quantity);
    WholeShare(lines[k].tax, lines[k].quantity);
  }

  lemma OneMoreLine(credits: seq<CreditLine>, l: OrderLine, other: OrderLine, n: nat)
    requires TimesLine(credits, other, n) && n <= 1 && (l.id == other.id ==> l == other && n == 0)
    ensures TimesLine(credits + [Itself(l)], other, if l.id == other.id then 1 else n)
  {
    hide QuantityOf, TotalOf, TaxOf;
    OfOne(Itself(l), other.id);
    OfAppend(credits, [Itself(l)], other.id);
  }

  lemma {:induction false} OfOne(c: CreditLine, id: Id)
    ensures QuantityOf([c], id) == (if c.source.id == id then c.quantity else 0)
    ensures TotalOf([c], id) == (if c.source.id == id then c.total else 0)
    ensures TaxOf([c], id) == (if c.source.id == id then c.tax else 0)
  {
    assert [c][..0] == [];
  }

  lemma WholeDraftLine(invoices: map<Id, Invoice>, order: Id, i: nat)
    requires order in invoices && DistinctLines(invoices[order].lines) && SoundLines(invoices[order].lines)
    requires Drafted(invoices, order, []).Ok? && i < |invoices[order].lines|
    ensures TimesLine(Drafted(invoices, order, []).value, invoices[order].lines[i], 1)
  {
    hide Credited, TimesLine, DistinctLines, SoundLines, TotalSum;
    var lines := invoices[order].lines;
    WholePrefixLine(lines, |lines|, i);
    assert lines[..|lines|] == lines;
  }

  lemma {:induction false} WholeStepAddsLine(b: Book, invoices: map<Id, Invoice>, s: Step, order: Id, i: nat)
    requires order in invoices && DistinctLines(invoices[order].lines) && SoundLines(invoices[order].lines)
    requires (s.order == order ==> s.wanted == []) && i < |invoices[order].lines|
    requires TimesLine(LinesFor(b.rows, order), invoices[order].lines[i], NotesFor(b.heads, order))
    ensures var after := Issued(b, invoices, s.order, s.wanted, s.commits).0;
      TimesLine(LinesFor(after.rows, order), invoices[order].lines[i], NotesFor(after.heads, order))
  {
    hide Drafted, Allowed, NoteNo, RowsOf, LinesFor, NotesFor, TotalSum, TaxSum, DistinctLines, SoundLines, TimesLine;
    var after := Issued(b, invoices, s.order, s.wanted, s.commits).0;
    if after != b {
      var credits := Drafted(invoices, s.order, s.wanted).value;
      LinesForRows(b.rows, b.lastNo + 1, s.order, credits, order);
      NotesPush(b.heads, after.heads[|b.heads|], order);
      assert LinesFor(b.rows, order) + [] == LinesFor(b.rows, order);
      if s.order == order {
        WholeDraftLine(invoices, order, i);
        OneMoreTime(LinesFor(b.rows, order), credits, invoices[order].lines[i], NotesFor(b.heads, order));
      }
    }
  }

  lemma {:induction false} WholeLinesAdd(invoices: map<Id, Invoice>, steps: seq<Step>, order: Id, i: nat)
    requires order in invoices && DistinctLines(invoices[order].lines) && SoundLines(invoices[order].lines)
    requires WholeOnly(steps, order) && i < |invoices[order].lines|
    ensures var b := Run(invoices, steps);
      TimesLine(LinesFor(b.rows, order), invoices[order].lines[i], NotesFor(b.heads, order))
  {
    if steps != [] {
      hide Issued, TimesLine, DistinctLines, SoundLines, LinesFor, NotesFor;
      WholeLinesAdd(invoices, steps[..|steps| - 1], order, i);
      WholeStepAddsLine(Run(invoices, steps[..|steps| - 1]), invoices, steps[|steps| - 1], order, i);
    }
  }

  /**
   * Each whole-invoice note adds the invoice once more: every line is credited as often as there
   * are notes, in quantity, total and VAT, and so is the invoice.
   */
  lemma {:induction false} WholeNotesAdd(invoices: map<Id, Invoice>, steps: seq<Step>, order: Id)
    requires order in invoices && DistinctLines(invoices[order].lines) && SoundLines(invoices[order].lines)
    requires WholeOnly(steps, order)
    ensures var b := Run(invoices, steps);
      && Multiples(b, invoices[order], order)
      && forall i :: 0 <= i < |invoices[order].lines| ==>
           TimesLine(LinesFor(b.rows, order), invoices[order].lines[i], NotesFor(b.heads, order))
  {
    hide Run, TimesLine, Multiples, DistinctLines, SoundLines, LinesFor, NotesFor, WholeOnly;
    WholeTotalsAdd(invoices, steps, order);
    var b := Run(invoices, steps);
    forall i | 0 <= i < |invoices[order].lines|
      ensures TimesLine(LinesFor(b.rows, order), invoices[order].lines[i], NotesFor(b.heads, order))
    {
      WholeLinesAdd(invoices, steps, order, i);
    }
  }

  /** Whole-invoice notes exceed an invoice that adds up exactly when there are two of them and it is not for nothing. */
  lemma {:induction false} WholeNotesExceedIff(invoices: map<Id, Invoice>, steps: seq<Step>, order: Id)
    requires order in invoices && DistinctLines(invoices[order].lines) && SoundLines(invoices[order].lines)
    requires WholeOnly(steps, order) && LineTotals(invoices[order].lines) == invoices[order].total
    ensures var b := Run(invoices, steps);
      TotalSum(LinesFor(b.rows, order)) > invoices[order].total <==> NotesFor(b.heads, order) >= 2 && invoices[order].total > 0
  {
    hide Run, LinesFor, DistinctLines, NotesFor, TotalSum;
    WholeTotalsAdd(invoices, steps, order);
    var n, t := NotesFor(Run(invoices, steps).heads, order), invoices[order].total;
    NotNegative(invoices[order].lines);
    Multiple(n, t);
  }

  lemma {:induction false} NotNegative(lines: seq<OrderLine>)
    requires SoundLines(lines)
    ensures LineTotals(lines) >= 0
  {
    if lines != [] {
      assert Sound(lines[|lines| - 1]);
      NotNegative(lines[..|lines| - 1]);
    }
  }

  lemma Multiple(n: nat, t: nat)
    ensures n * t > t <==> n >= 2 && t > 0
  {
    if n >= 2 && t > 0 {
      assert n * t == t + (n - 1) * t && (n - 1) * t >= t;
    } else if n == 1 {
    } else if t > 0 {
      assert n == 0;
    }
  }

  // ---------------------------------------------------------------- heads and their lines

  ghost function RowTotal(rows: seq<Row>, number: nat): int {
    if rows == [] then 0
    else RowTotal(rows[..|rows| - 1], number) + (if rows[|rows| - 1].number == number then rows[|rows| - 1].line.total else 0)
  }

  ghost function RowTax(rows: seq<Row>, number: nat): int {
    if rows == [] then 0
    else RowTax(rows[..|rows| - 1], number) + (if rows[|rows| - 1].number == number then rows[|rows| - 1].line.tax else 0)
  }

  lemma {:induction false} RowSums(rows: seq<Row>, number: nat, order: Id, credits: seq<CreditLine>, which: nat)
    ensures var all := rows + RowsOf(number, order, credits);
      && RowTotal(all, which) == RowTotal(rows, which) + (if which == number then TotalSum(credits) else 0)
      && RowTax(all, which) == RowTax(rows, which) + (if which == number then TaxSum(credits) else 0)
  {
    if credits == [] {
      assert rows + RowsOf(number, order, credits) == rows;
    } else {
      var front, last := credits[..|credits| - 1], credits[|credits| - 1];
      RowSums(rows, number, order, front, which);
      var before, all := rows + RowsOf(number, order, front), rows + RowsOf(number, order, credits);
      assert all == before + [Row(number, order, last)];
      assert all[..|before|] == before;
    }
  }

  /** No row is numbered past the counter, and every head is the sum of its own rows and copies its invoice. */
  ghost predicate HeadsOk(b: Book, invoices: map<Id, Invoice>) {
    && Gapless(b)
    && (forall n :: n > b.lastNo ==> RowTotal(b.rows, n) == 0 && RowTax(b.rows, n) == 0)
    && forall i :: 0 <= i < |b.heads| ==> HeadOk(b.heads[i], b.rows, invoices)
  }

  ghost predicate HeadOk(h: Head, rows: seq<Row>, invoices: map<Id, Invoice>) {
    && h.total == RowTotal(rows, h.number) && h.tax == RowTax(rows, h.number)
    && h.order in invoices && h.treatment == invoices[h.order].treatment
    && 0 <= h.total <= invoices[h.order].total
  }

  lemma IssueKeepsHeads(b: Book, invoices: map<Id, Invoice>, order: Id, wanted: seq<Wanted>, commits: bool)
    requires HeadsOk(b, invoices)
    ensures HeadsOk(Issued(b, invoices, order, wanted, commits).0, invoices)
  {
    hide Credited, RowAllowed, NoteNo, RowTotal, RowTax, TotalSum, TaxSum, RowsOf;
    var after := Issued(b, invoices, order, wanted, commits).0;
    if after != b {
      var credits := Drafted(invoices, order, wanted).value;
      var n := b.lastNo + 1;
      forall m: nat ensures
        && RowTotal(after.rows, m) == RowTotal(b.rows, m) + (if m == n then TotalSum(credits) else 0)
        && RowTax(after.rows, m) == RowTax(b.rows, m) + (if m == n then TaxSum(credits) else 0)
      {
        RowSums(b.rows, n, order, credits, m);
      }
      forall i | 0 <= i < |after.heads| ensures HeadOk(after.heads[i], after.rows, invoices) {
        assert i < |b.heads| ==> HeadOk(b.heads[i], b.rows, invoices);
      }
    }
  }

  /** In every reachable state each note totals its own lines, stays within its invoice and carries its tax treatment. */
  lemma {:induction false} HeadsTotalTheirLines(invoices: map<Id, Invoice>, steps: seq<Step>)
    ensures HeadsOk(Run(invoices, steps), invoices)
  {
    hide Issued, HeadOk, Gapless;
    if steps == [] {
      NoHeads(invoices);
    } else {
      var last := steps[|steps| - 1];
      HeadsTotalTheirLines(invoices, steps[..|steps| - 1]);
      IssueKeepsHeads(Run(invoices, steps[..|steps| - 1]), invoices, last.order, last.wanted, last.commits);
    }
  }

  lemma NoHeads(invoices: map<Id, Invoice>)
    ensures HeadsOk(EMPTY, invoices)
  {
  }

  const SAMPLE: map<Id, Invoice> := map["o" := Invoice(105, "standard", [OrderLine("l", 1000, 5, 105, "S", 500)])]

  const AGAIN: seq<Step> := [Issue("o", [], true), Issue("o", [], true)]

  /** Each note stays within the invoice, but two of them need not: nothing adds up earlier credits. */
  lemma TogetherTheyMayExceed()
    ensures var b := Run(SAMPLE, AGAIN);
      |b.heads| == 2 && b.heads[0].total + b.heads[1].total > SAMPLE["o"].total
  {
    var lines := SAMPLE["o"].lines;
    assert lines[..0] == [];
    assert LineTotals(lines) == 105 && LineTaxes(lines) == 5;
    WholeCreditIsExact(SAMPLE, "o");
    var one := AGAIN[..1];
    assert one[..0] == [] && AGAIN[..|AGAIN| - 1] == one;
    hide Drafted;
    SoundDraftCommits(EMPTY, SAMPLE, "o", []);
    SoundDraftCommits(Run(SAMPLE, one), SAMPLE, "o", []);
  }
}
