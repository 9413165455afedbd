/** Double-entry posting of sales and refunds: entries balance at commit or are rolled back, one per source. */
module Journal {
  import opened Common
  import opened Rounding

  type Id = string

  const CASH: string := "1000"
  const CLEARING: string := "1100"
  const RECEIVABLE: string := "1200"
  const INVENTORY: string := "1300"
  const VAT: string := "2200"
  const REVENUE: string := "4000"
  const REFUNDS: string := "4900"
  const COGS: string := "5000"

  const CORE_ACCOUNTS: seq<string> := [CASH, CLEARING, RECEIVABLE, INVENTORY, VAT, REVENUE, REFUNDS, COGS]

  datatype Line = Line(code: string, debit: int, credit: int)

  datatype Source = SaleSource | RefundSource

  datatype Entry = Entry(source: Source, id: Id, lines: seq<Line>)

  datatype FinanceError = OrderNotFound | NoPayments | RefundNotFound | RefundNotProcessed | CheckFailed | Unbalanced

  // ---------------------------------------------------------------- committing an entry

  /** The row checks: no negative side, and only one side. */
  predicate LineAllowed(l: Line) {
    l.debit >= 0 && l.credit >= 0 && (l.debit == 0 || l.credit == 0)
  }

  predicate LinesAllowed(lines: seq<Line>) {
    forall i :: 0 <= i < |lines| ==> LineAllowed(lines[i])
  }

  function Debits(lines: seq<Line>): int {
    if lines == [] then 0 else Debits(lines[..|lines| - 1]) + lines[|lines| - 1].debit
  }

  function Credits(lines: seq<Line>): int {
    if lines == [] then 0 else Credits(lines[..|lines| - 1]) + lines[|lines| - 1].credit
  }

  function FindEntry(entries: seq<Entry>, source: Source, id: Id): (r: Option<Entry>)
    ensures r.Some? ==> r.value in entries && r.value.source == source && r.value.id == id
  {
    if entries == [] then None
    else
      var last := entries[|entries| - 1];
      if last.source == source && last.id == id then Some(last) else FindEntry(entries[..|entries| - 1], source, id)
  }

  /** `insertEntry` to commit: the source key, the row checks, then the deferred balance trigger. */
  function Posted(entries: seq<Entry>, source: Source, id: Id, lines: seq<Line>): (seq<Entry>, Result<Entry, FinanceError>) {
    match FindEntry(entries, source, id)
    case Some(e) => (entries, Ok(e))
    case None =>
      if !LinesAllowed(lines) then (entries, Err(CheckFailed))
      else if Debits(lines) != Credits(lines) then (entries, Err(Unbalanced))
      else (entries + [Entry(source, id, lines)], Ok(Entry(source, id, lines)))
  }

  // ---------------------------------------------------------------- a sale

  datatype Payment = Payment(tender: string, status: string, amount: int)

  /** The order row, its payments, and the cost of the goods sold. */
  datatype Order = Order(total: int, tax: int, cost: int, payments: seq<Payment>)

  function AccountOf(p: Payment): string {
    if p.tender == "cash" then CASH
    else if p.tender == "gateway" && p.status == "pending" then RECEIVABLE
    else CLEARING
  }

  predicate HasCode(lines: seq<Line>, code: string) {
    exists i :: 0 <= i < |lines| && lines[i].code == code
  }

  /** Add to the debit the account already has. */
  function Bumped(lines: seq<Line>, code: string, amount: int): seq<Line> {
    if lines == [] then []
    else
      var front, last := lines[..|lines| - 1], lines[|lines| - 1];
      if last.code == code then front + [last.(debit := last.debit + amount)] else Bumped(front, code, amount) + [last]
  }

  function Debited(lines: seq<Line>, code: string, amount: int): seq<Line> {
    if HasCode(lines, code) then Bumped(lines, code, amount) else lines + [Line(code, amount, 0)]
  }

  /** The payments of a positive amount, added up per account in order of first appearance. */
  function PaymentDebits(payments: seq<Payment>): seq<Line> {
    if payments == [] then []
    else
      var front, last := PaymentDebits(payments[..|payments| - 1]), payments[|payments| - 1];
      if last.amount > 0 then Debited(front, AccountOf(last), last.amount) else front
  }

  predicate NonZero(l: Line) {
    l.debit != 0 || l.credit != 0
  }

  function NonZeroLines(lines: seq<Line>): seq<Line> {
    if lines == [] then []
    else NonZeroLines(lines[..|lines| - 1]) + (if NonZero(lines[|lines| - 1]) then [lines[|lines| - 1]] else [])
  }

  function SaleLines(o: Order): seq<Line> {
    NonZeroLines(PaymentDebits(o.payments)
                 + [Line(REVENUE, 0, o.total - o.tax), Line(VAT, 0, o.tax), Line(COGS, o.cost, 0), Line(INVENTORY, 0, o.cost)])
  }

  /** `postSale`, given what the order row and its payments hold at that moment. */
  function SalePosted(entries: seq<Entry>, id: Id, order: Option<Order>): (seq<Entry>, Result<Entry, FinanceError>) {
    match order
    case None => (entries, Err(OrderNotFound))
    case Some(o) =>
      if PaymentDebits(o.payments) == [] then (entries, Err(NoPayments))
      else Posted(entries, SaleSource, id, SaleLines(o))
  }

  // ---------------------------------------------------------------- a refund

  datatype Refund = Refund(amount: int, status: string, tender: string, orderTotal: int, orderTax: int)

  /** `Math.round(num / den)` for a denominator of either sign. */
  function RoundedQuotient(num: int, den: int): int
    requires den != 0
  {
    if den > 0 then HalfUp(num, den) else HalfUp(-num, -den)
  }

  function TaxPortion(r: Refund): int {
    if r.orderTotal == 0 then 0 else RoundedQuotient(r.amount * r.orderTax, r.orderTotal)
  }

  function RefundLines(r: Refund): seq<Line> {
    NonZeroLines([Line(REFUNDS, r.amount - TaxPortion(r), 0), Line(VAT, TaxPortion(r), 0),
                  Line(if r.tender == "cash" then CASH else CLEARING, 0, r.amount)])
  }

  /** `postRefund`, given what the refund and its order hold at that moment. */
  function RefundPosted(entries: seq<Entry>, id: Id, refund: Option<Refund>): (seq<Entry>, Result<Entry, FinanceError>) {
    match refund
    case None => (entries, Err(RefundNotFound))
    case Some(r) =>
      if r.status != "processed" then (entries, Err(RefundNotProcessed))
      else Posted(entries, RefundSource, id, RefundLines(r))
  }

  // ---------------------------------------------------------------- the trial balance

  datatype TrialRow = TrialRow(code: string, debit: int, credit: int)

  function AllLines(entries: seq<Entry>): seq<Line> {
    if entries == [] then [] else AllLines(entries[..|entries| - 1]) + entries[|entries| - 1].lines
  }

  function DebitOf(lines: seq<Line>, code: string): int {
    if lines == [] then 0
    else DebitOf(lines[..|lines| - 1], code) + (if lines[|lines| - 1].code == code then lines[|lines| - 1].debit else 0)
  }

  function CreditOf(lines: seq<Line>, code: string): int {
    if lines == [] then 0
    else CreditOf(lines[..|lines| - 1], code) + (if lines[|lines| - 1].code == code then lines[|lines| - 1].credit else 0)
  }

  /** The grouped query: one row per account, whether or not it has lines. */
  function TrialRows(lines: seq<Line>, accounts: seq<string>): seq<TrialRow> {
    if accounts == [] then []
    else
      var code := accounts[|accounts| - 1];
      TrialRows(lines, accounts[..|accounts| - 1]) + [TrialRow(code, DebitOf(lines, code), CreditOf(lines, code))]
  }

  function RowDebits(rows: seq<TrialRow>): int {
    if rows == [] then 0 else RowDebits(rows[..|rows| - 1]) + rows[|rows| - 1].debit
  }

  function RowCredits(rows: seq<TrialRow>): int {
    if rows == [] then 0 else RowCredits(rows[..|rows| - 1]) + rows[|rows| - 1].credit
  }

  // ---------------------------------------------------------------- the service

  class FinanceTables {
    var entries: seq<Entry>

    constructor ()
      ensures entries == []
    {
      entries := [];
    }

    /** The debit map of `postSale`. */
    method AggregatePayments(payments: seq<Payment>) returns (debits: seq<Line>)
      ensures debits == PaymentDebits(payments)
    {
      debits := [];
      var i := 0;
      while i < |payments|
        invariant 0 <= i <= |payments|
        invariant debits == PaymentDebits(payments[..i])
      {
        assert payments[..i + 1][..i] == payments[..i];
        if payments[i].amount > 0 {
          debits := Debited(debits, AccountOf(payments[i]), payments[i].amount);
        }
        i := i + 1;
      }
      assert payments[..|payments|] == payments;
    }

    /** Header, then lines one by one, then the trigger at commit; a failure leaves no entry. */
    method InsertEntry(source: Source, id: Id, lines: seq<Line>) returns (r: Result<Entry, FinanceError>)
      modifies this
      ensures (entries, r) == Posted(old(entries), source, id, lines)
    {
      var existing := FindEntry(entries, source, id);
      if existing.Some? {
        return Ok(existing.value);
      }
      var before := entries;
      var entry := Entry(source, id, []);
      var debit, credit := 0, 0;
      var i := 0;
      while i < |lines|
        invariant 0 <= i <= |lines|
        invariant LinesAllowed(lines[..i]) && entry == Entry(source, id, lines[..i])
        invariant debit == Debits(lines[..i]) && credit == Credits(lines[..i])
      {
        if !LineAllowed(lines[i]) {
          return Err(CheckFailed);
        }
        assert lines[..i + 1][..i] == lines[..i];
        entry := entry.(lines := entry.lines + [lines[i]]);
        debit, credit := debit + lines[i].debit, credit + lines[i].credit;
        i := i + 1;
      }
      assert lines[..|lines|] == lines;
      if debit != credit {
        return Err(Unbalanced);
      }
      entries := before + [entry];
      return Ok(entry);
    }

    method PostSale(id: Id, order: Option<Order>) returns (r: Result<Entry, FinanceError>)
      modifies this
      ensures (entries, r) == SalePosted(old(entries), id, order)
    {
      hide Posted, NonZeroLines;
      if order.None? {
        return Err(OrderNotFound);
      }
      var o := order.value;
      var debits := AggregatePayments(o.payments);
      if debits == [] {
        return Err(NoPayments);
      }
      var lines := NonZeroLines(debits + [Line(REVENUE, 0, o.total - o.tax), Line(VAT, 0, o.tax),
                                          Line(COGS, o.cost, 0), Line(INVENTORY, 0, o.cost)]);
      r := InsertEntry(SaleSource, id, lines);
    }

    method PostRefund(id: Id, refund: Option<Refund>) returns (r: Result<Entry, FinanceError>)
      modifies this
      ensures (entries, r) == RefundPosted(old(entries), id, refund)
    {
      hide Posted, NonZeroLines;
      if refund.None? {
        return Err(RefundNotFound);
      }
      if refund.value.status != "processed" {
        return Err(RefundNotProcessed);
      }
      r := InsertEntry(RefundSource, id, RefundLines(refund.value));
    }

    /**
     * `trialBalance`: every account with what its lines add up to, and total debit less total credit,
     * which is zero for a well-formed journal whose core accounts are all listed once.
     */
    method TrialBalance(accounts: seq<string>) returns (rows: seq<TrialRow>, net: int)
      ensures |rows| == |accounts|
      ensures forall i :: 0 <= i < |rows| ==>
        rows[i] == TrialRow(accounts[i], DebitOf(AllLines(entries), accounts[i]), CreditOf(AllLines(entries), accounts[i]))
      ensures JournalOk(entries) && NoDuplicates(accounts) && CoreListed(accounts) ==> net == 0
    {
      rows := TrialRows(AllLines(entries), accounts);
      net := RowDebits(rows) - RowCredits(rows);
      RowsInOrder(AllLines(entries), accounts);
      if JournalOk(entries) && NoDuplicates(accounts) && CoreListed(accounts) {
        NetsToZero(entries, accounts);
      }
    }
  }

  // ---------------------------------------------------------------- every run balances

  datatype Step = PostSale(id: Id, order: Option<Order>) | PostRefund(id: Id, refund: Option<Refund>)

  function Stepped(entries: seq<Entry>, s: Step): (seq<Entry>, Result<Entry, FinanceError>) {
    match s
    case PostSale(id, order) => SalePosted(entries, id, order)
    case PostRefund(id, refund) => RefundPosted(entries, id, refund)
  }

  function Run(entries: seq<Entry>, steps: seq<Step>): seq<Entry> {
    if steps == [] then entries else Stepped(Run(entries, steps[..|steps| - 1]), steps[|steps| - 1]).0
  }

  predicate CodesIn(lines: seq<Line>, accounts: seq<string>) {
    forall i :: 0 <= i < |lines| ==> lines[i].code in accounts
  }

  predicate EntryOk(e: Entry) {
    LinesAllowed(e.lines) && Debits(e.lines) == Credits(e.lines) && CodesIn(e.lines, CORE_ACCOUNTS)
  }

  /** Every entry balances and uses core accounts, and no two have the same source. */
  ghost predicate JournalOk(entries: seq<Entry>) {
    && (forall i :: 0 <= i < |entries| ==> EntryOk(entries[i]))
    && (forall i, j :: 0 <= i < j < |entries| ==> entries[i].source != entries[j].source || entries[i].id != entries[j].id)
  }

  lemma {:induction false} FindEntryNone(entries: seq<Entry>, source: Source, id: Id)
    requires FindEntry(entries, source, id).None?
    ensures forall i :: 0 <= i < |entries| ==> entries[i].source != source || entries[i].id != id
  {
    if entries != [] {
      FindEntryNone(entries[..|entries| - 1], source, id);
      forall i | 0 <= i < |entries| ensures entries[i].source != source || entries[i].id != id {
        assert i < |entries| - 1 ==> entries[..|entries| - 1][i] == entries[i];
      }
    }
  }

  lemma PostedKeeps(entries: seq<Entry>, source: Source, id: Id, lines: seq<Line>)
    requires JournalOk(entries) && CodesIn(lines, CORE_ACCOUNTS)
    ensures JournalOk(Posted(entries, source, id, lines).0) && entries <= Posted(entries, source, id, lines).0
  {
    hide LinesAllowed, CodesIn, Debits, Credits;
    if FindEntry(entries, source, id).None? {
      FindEntryNone(entries, source, id);
    }
  }

  lemma {:induction false} NonZeroCodes(lines: seq<Line>, accounts: seq<string>)
    requires CodesIn(lines, accounts)
    ensures CodesIn(NonZeroLines(lines), accounts)
  {
    if lines != [] {
      NonZeroCodes(lines[..|lines| - 1], accounts);
    }
  }

  lemma {:induction false} BumpedShape(lines: seq<Line>, code: string, amount: int)
    ensures |Bumped(lines, code, amount)| == |lines|
    ensures forall i :: 0 <= i < |lines| ==>
      Bumped(lines, code, amount)[i].code == lines[i].code && Bumped(lines, code, amount)[i].credit == lines[i].credit
    ensures forall i :: 0 <= i < |lines| && amount > 0 ==> Bumped(lines, code, amount)[i].debit >= lines[i].debit
  {
    if lines != [] && lines[|lines| - 1].code != code {
      BumpedShape(lines[..|lines| - 1], code, amount);
    }
  }

  predicate DebitLine(l: Line) {
    l.debit > 0 && l.credit == 0 && l.code in [CASH, CLEARING, RECEIVABLE]
  }

  lemma {:induction false} PaymentDebitLines(payments: seq<Payment>)
    ensures forall i :: 0 <= i < |PaymentDebits(payments)| ==> DebitLine(PaymentDebits(payments)[i])
  {
    if payments != [] {
      PaymentDebitLines(payments[..|payments| - 1]);
      var front, last := PaymentDebits(payments[..|payments| - 1]), payments[|payments| - 1];
      BumpedShape(front, AccountOf(last), last.amount);
      assert AccountOf(last) in [CASH, CLEARING, RECEIVABLE];
      forall i | 0 <= i < |PaymentDebits(payments)| ensures DebitLine(PaymentDebits(payments)[i]) {
        assert i < |front| ==> DebitLine(front[i]);
      }
    }
  }

  lemma SaleCodes(o: Order)
    ensures CodesIn(SaleLines(o), CORE_ACCOUNTS)
  {
    hide PaymentDebits;
    PaymentDebitLines(o.payments);
    var lines := PaymentDebits(o.payments)
      + [Line(REVENUE, 0, o.total - o.tax), Line(VAT, 0, o.tax), Line(COGS, o.cost, 0), Line(INVENTORY, 0, o.cost)];
    forall i | 0 <= i < |lines| ensures lines[i].code in CORE_ACCOUNTS {
      assert i < |PaymentDebits(o.payments)| ==> DebitLine(lines[i]);
    }
    NonZeroCodes(lines, CORE_ACCOUNTS);
  }

  lemma RefundCodes(r: Refund)
    ensures CodesIn(RefundLines(r), CORE_ACCOUNTS)
  {
    hide TaxPortion;
    NonZeroCodes([Line(REFUNDS, r.amount - TaxPortion(r), 0), Line(VAT, TaxPortion(r), 0),
                  Line(if r.tender == "cash" then CASH else CLEARING, 0, r.amount)], CORE_ACCOUNTS);
  }

  lemma StepKeeps(entries: seq<Entry>, s: Step)
    requires JournalOk(entries)
    ensures JournalOk(Stepped(entries, s).0) && entries <= Stepped(entries, s).0
  {
    hide Posted, JournalOk, SaleLines, RefundLines, PaymentDebits;
    match s
    case PostSale(id, order) =>
      if order.Some? && PaymentDebits(order.value.payments) != [] {
        SaleCodes(order.value);
        PostedKeeps(entries, SaleSource, id, SaleLines(order.value));
      }
    case PostRefund(id, refund) =>
      if refund.Some? && refund.value.status == "processed" {
        RefundCodes(refund.value);
        PostedKeeps(entries, RefundSource, id, RefundLines(refund.value));
      }
  }

  lemma {:induction false} RunKeeps(entries: seq<Entry>, steps: seq<Step>)
    requires JournalOk(entries)
    ensures JournalOk(Run(entries, steps)) && entries <= Run(entries, steps)
  {
    hide Stepped, JournalOk;
    if steps != [] {
      RunKeeps(entries, steps[..|steps| - 1]);
      StepKeeps(Run(entries, steps[..|steps| - 1]), steps[|steps| - 1]);
    }
  }

  lemma {:induction false} DebitsAppend(a: seq<Line>, b: seq<Line>)
    ensures Debits(a + b) == Debits(a) + Debits(b) && Credits(a + b) == Credits(a) + Credits(b)
  {
    if b == [] {
      assert a + b == a;
    } else {
      DebitsAppend(a, b[..|b| - 1]);
      assert (a + b)[..|a + b| - 1] == a + b[..|b| - 1];
    }
  }

  lemma {:induction false} AllBalances(entries: seq<Entry>)
    requires forall i :: 0 <= i < |entries| ==> EntryOk(entries[i])
    ensures Debits(AllLines(entries)) == Credits(AllLines(entries)) && CodesIn(AllLines(entries), CORE_ACCOUNTS)
  {
    if entries != [] {
      var front, last := entries[..|entries| - 1], entries[|entries| - 1];
      forall i | 0 <= i < |front| ensures EntryOk(front[i]) {
        assert front[i] == entries[i];
      }
      AllBalances(front);
      assert EntryOk(last);
      DebitsAppend(AllLines(front), last.lines);
    }
  }

  predicate CoreListed(accounts: seq<string>) {
    forall i :: 0 <= i < |CORE_ACCOUNTS| ==> CORE_ACCOUNTS[i] in accounts
  }

  lemma {:induction false} RowsInOrder(lines: seq<Line>, accounts: seq<string>)
    ensures |TrialRows(lines, accounts)| == |accounts|
    ensures forall i :: 0 <= i < |accounts| ==>
      TrialRows(lines, accounts)[i] == TrialRow(accounts[i], DebitOf(lines, accounts[i]), CreditOf(lines, accounts[i]))
  {
    hide DebitOf, CreditOf;
    if accounts != [] {
      RowsInOrder(lines, accounts[..|accounts| - 1]);
    }
  }

  lemma {:induction false} RowsOfNothing(accounts: seq<string>)
    ensures RowDebits(TrialRows([], accounts)) == 0 && RowCredits(TrialRows([], accounts)) == 0
  {
    if accounts != [] {
      RowsOfNothing(accounts[..|accounts| - 1]);
      RowSums([], accounts);
    }
  }

  lemma {:induction false} RowSums(lines: seq<Line>, accounts: seq<string>)
    requires accounts != []
    ensures var code := accounts[|accounts| - 1];
      && RowDebits(TrialRows(lines, accounts)) == RowDebits(TrialRows(lines, accounts[..|accounts| - 1])) + DebitOf(lines, code)
      && RowCredits(TrialRows(lines, accounts)) == RowCredits(TrialRows(lines, accounts[..|accounts| - 1])) + CreditOf(lines, code)
  {
    hide DebitOf, CreditOf;
    var rows := TrialRows(lines, accounts);
    assert rows[..|rows| - 1] == TrialRows(lines, accounts[..|accounts| - 1]);
  }

  /** One more line lands in exactly one row. */
  lemma {:induction false} LineLandsOnce(front: seq<Line>, last: Line, accounts: seq<string>)
    requires NoDuplicates(accounts)
    ensures var before, after := TrialRows(front, accounts), TrialRows(front + [last], accounts);
      && RowDebits(after) == RowDebits(before) + (if last.code in accounts then last.debit else 0)
      && RowCredits(after) == RowCredits(before) + (if last.code in accounts then last.credit else 0)
  {
    hide RowDebits, RowCredits, TrialRows;
    if accounts == [] {
      NoRows(front);
      NoRows(front + [last]);
    } else {
      var some, code := accounts[..|accounts| - 1], accounts[|accounts| - 1];
      assert accounts == some + [code];
      LineLandsOnce(front, last, some);
      RowSums(front, accounts);
      RowSums(front + [last], accounts);
      assert (front + [last])[..|front|] == front;
    }
  }

  lemma {:induction false} NoRows(lines: seq<Line>)
    ensures RowDebits(TrialRows(lines, [])) == 0 && RowCredits(TrialRows(lines, [])) == 0
  {
  }

  /** When every line's account has its row, the rows' totals are the lines' totals. */
  lemma {:induction false} RowsTotalTheLines(lines: seq<Line>, accounts: seq<string>)
    requires NoDuplicates(accounts) && CodesIn(lines, accounts)
    ensures RowDebits(TrialRows(lines, accounts)) == Debits(lines) && RowCredits(TrialRows(lines, accounts)) == Credits(lines)
  {
    hide RowDebits, RowCredits, TrialRows;
    if lines == [] {
      RowsOfNothing(accounts);
    } else {
      var front, last := lines[..|lines| - 1], lines[|lines| - 1];
      RowsTotalTheLines(front, accounts);
      LineLandsOnce(front, last, accounts);
      assert lines == front + [last];
      assert last.code in accounts;
    }
  }

  /** A well-formed journal nets to zero over any chart of accounts that lists the core accounts once. */
  lemma {:induction false} NetsToZero(entries: seq<Entry>, accounts: seq<string>)
    requires JournalOk(entries) && NoDuplicates(accounts) && CoreListed(accounts)
    ensures var rows := TrialRows(AllLines(entries), accounts);
      RowDebits(rows) == RowCredits(rows)
  {
    hide TrialRows, RowDebits, RowCredits, AllLines;
    AllBalances(entries);
    var lines := AllLines(entries);
    forall i | 0 <= i < |lines| ensures lines[i].code in accounts {
      assert lines[i].code in CORE_ACCOUNTS;
      var k :| 0 <= k < |CORE_ACCOUNTS| && CORE_ACCOUNTS[k] == lines[i].code;
    }
    RowsTotalTheLines(lines, accounts);
  }

  /** In every reachable state the journal is well-formed and the trial balance nets to zero. */
  lemma {:induction false} TrialBalanceNetsToZero(steps: seq<Step>, accounts: seq<string>)
    requires NoDuplicates(accounts) && CoreListed(accounts)
    ensures JournalOk(Run([], steps))
    ensures var rows := TrialRows(AllLines(Run([], steps)), accounts);
      RowDebits(rows) == RowCredits(rows)
  {
    hide Run, TrialRows, RowDebits, RowCredits, AllLines, JournalOk, CoreListed;
    NothingIsOk();
    RunKeeps([], steps);
    NetsToZero(Run([], steps), accounts);
  }

  // ---------------------------------------------------------------- posting again

  lemma {:induction false} FindsPosted(entries: seq<Entry>, i: nat)
    requires JournalOk(entries) && i < |entries|
    ensures FindEntry(entries, entries[i].source, entries[i].id) == Some(entries[i])
  {
    hide EntryOk;
    if i < |entries| - 1 {
      var front := entries[..|entries| - 1];
      assert forall k :: 0 <= k < |front| ==> front[k] == entries[k];
      FindsPosted(front, i);
    }
  }

  /** What `postSale` and `postRefund` look for before they look for the entry. */
  predicate Postable(s: Step) {
    match s
    case PostSale(_, order) => order.Some? && exists i :: 0 <= i < |order.value.payments| && order.value.payments[i].amount > 0
    case PostRefund(_, refund) => refund.Some? && refund.value.status == "processed"
  }

  /**
   * Once a source is posted, posting it again at any later time, whatever its order or refund then holds,
   * returns the same entry if it can still be posted and an error if not; it never changes anything.
   */
  lemma {:induction false} PostingAgainReturnsTheEntry(steps: seq<Step>, s: Step, later: seq<Step>, again: Step)
    requires var first := Stepped(Run([], steps), s);
      && first.1.Ok?
      && again.id == s.id && again.PostSale? == s.PostSale?
    ensures var first := Stepped(Run([], steps), s);
      var now := Run(first.0, later);
      && Stepped(now, again).0 == now
      && (if Postable(again) then Stepped(now, again).1 == first.1 else Stepped(now, again).1.Err?)
  {
    hide Run, PaymentDebits, SaleLines, RefundLines, LinesAllowed, Debits, Credits, JournalOk;
    var before := Run([], steps);
    var first := Stepped(before, s);
    NothingIsOk();
    RunKeeps([], steps);
    StepKeeps(before, s);
    RunKeeps(first.0, later);
    var now := Run(first.0, later);
    PostedIsThere(before, s);
    var i :| 0 <= i < |first.0| && first.0[i] == first.1.value;
    assert now[i] == first.0[i];
    FindsPosted(now, i);
    if again.PostSale? && again.order.Some? {
      SomePayment(again.order.value.payments);
    }
  }

  lemma NothingIsOk()
    ensures JournalOk([])
  {
  }

  lemma PostedIsThere(entries: seq<Entry>, s: Step)
    requires Stepped(entries, s).1.Ok?
    ensures var r := Stepped(entries, s);
      && r.1.value in r.0 && r.1.value.id == s.id
      && r.1.value.source == if s.PostSale? then SaleSource else RefundSource
  {
    hide PaymentDebits, SaleLines, RefundLines, LinesAllowed, Debits, Credits;
  }

  // ---------------------------------------------------------------- what a sale entry says

  ghost function Balance(lines: seq<Line>, code: string): int {
    DebitOf(lines, code) - CreditOf(lines, code)
  }

  lemma {:induction false} OfAppend(a: seq<Line>, b: seq<Line>, code: string)
    ensures DebitOf(a + b, code) == DebitOf(a, code) + DebitOf(b, code)
    ensures CreditOf(a + b, code) == CreditOf(a, code) + CreditOf(b, code)
  {
    if b == [] {
      assert a + b == a;
    } else {
      OfAppend(a, b[..|b| - 1], code);
      assert (a + b)[..|a + b| - 1] == a + b[..|b| - 1];
    }
  }

  lemma {:induction false} SumsPush(front: seq<Line>, last: Line, code: string)
    ensures var lines := front + [last];
      && Debits(lines) == Debits(front) + last.debit && Credits(lines) == Credits(front) + last.credit
      && DebitOf(lines, code) == DebitOf(front, code) + (if last.code == code then last.debit else 0)
      && CreditOf(lines, code) == CreditOf(front, code) + (if last.code == code then last.credit else 0)
      && (LinesAllowed(lines) <==> LinesAllowed(front) && LineAllowed(last))
  {
    DebitsAppend(front, [last]);
    OfAppend(front, [last], code);
    OneLine(last, code);
    AllowedAppend(front, [last]);
    assert [last][0] == last;
  }

  lemma {:induction false} NonZeroKeepsSums(lines: seq<Line>, code: string)
    ensures Debits(NonZeroLines(lines)) == Debits(lines) && Credits(NonZeroLines(lines)) == Credits(lines)
    ensures DebitOf(NonZeroLines(lines), code) == DebitOf(lines, code)
    ensures CreditOf(NonZeroLines(lines), code) == CreditOf(lines, code)
    ensures LinesAllowed(NonZeroLines(lines)) <==> LinesAllowed(lines)
  {
    if lines != [] {
      hide Debits, Credits, DebitOf, CreditOf, LinesAllowed;
      var front, last := lines[..|lines| - 1], lines[|lines| - 1];
      NonZeroKeepsSums(front, code);
      assert lines == front + [last];
      SumsPush(front, last, code);
      if NonZero(last) {
        SumsPush(NonZeroLines(front), last, code);
      } else {
        assert NonZeroLines(lines) == NonZeroLines(front);
      }
    }
  }

  lemma AllowedAppend(a: seq<Line>, b: seq<Line>)
    ensures LinesAllowed(a + b) <==> LinesAllowed(a) && LinesAllowed(b)
  {
    hide LineAllowed;
    assert forall i :: 0 <= i < |a| ==> (a + b)[i] == a[i];
    assert forall i :: 0 <= i < |b| ==> (a + b)[|a| + i] == b[i];
  }

  lemma {:induction false} OneLine(l: Line, code: string)
    ensures Debits([l]) == l.debit && Credits([l]) == l.credit
    ensures DebitOf([l], code) == if l.code == code then l.debit else 0
    ensures CreditOf([l], code) == if l.code == code then l.credit else 0
  {
    assert [l][..0] == [];
  }

  ghost function Paid(payments: seq<Payment>): int {
    if payments == [] then 0
    else Paid(payments[..|payments| - 1]) + (if payments[|payments| - 1].amount > 0 then payments[|payments| - 1].amount else 0)
  }

  /** Where a payment goes: cash to the till, a gateway payment still pending to the receivable, any other to clearing. */
  ghost predicate GoesTo(p: Payment, code: string) {
    if p.tender == "cash" then code == CASH
    else if p.tender == "gateway" && p.status == "pending" then code == RECEIVABLE
    else code == CLEARING
  }

  /** What was paid into an account. */
  ghost function PaidInto(payments: seq<Payment>, code: string): int {
    if payments == [] then 0
    else
      var last := payments[|payments| - 1];
      PaidInto(payments[..|payments| - 1], code) + (if last.amount > 0 && GoesTo(last, code) then last.amount else 0)
  }

  lemma {:induction false} BumpedSums(lines: seq<Line>, code: string, amount: int, which: string)
    requires HasCode(lines, code)
    ensures Debits(Bumped(lines, code, amount)) == Debits(lines) + amount
    ensures DebitOf(Bumped(lines, code, amount), which) == DebitOf(lines, which) + (if which == code then amount else 0)
  {
    var front, last := lines[..|lines| - 1], lines[|lines| - 1];
    var r := Bumped(lines, code, amount);
    if last.code == code {
      assert r[..|r| - 1] == front;
    } else {
      assert HasCode(front, code) by {
        var i :| 0 <= i < |lines| && lines[i].code == code;
        assert front[i].code == code;
      }
      BumpedSums(front, code, amount, which);
      assert r[..|r| - 1] == Bumped(front, code, amount);
    }
  }

  lemma {:induction false} PaymentSums(payments: seq<Payment>, code: string)
    ensures Debits(PaymentDebits(payments)) == Paid(payments)
    ensures DebitOf(PaymentDebits(payments), code) == PaidInto(payments, code)
  {
    if payments != [] {
      PaymentSums(payments[..|payments| - 1], code);
      var front, last := PaymentDebits(payments[..|payments| - 1]), payments[|payments| - 1];
      if last.amount > 0 {
        if HasCode(front, AccountOf(last)) {
          BumpedSums(front, AccountOf(last), last.amount, code);
        } else {
          DebitsAppend(front, [Line(AccountOf(last), last.amount, 0)]);
          OfAppend(front, [Line(AccountOf(last), last.amount, 0)], code);
          OneLine(Line(AccountOf(last), last.amount, 0), code);
        }
      }
    }
  }

  /** An account that was paid into has one line with all that was paid into it; no other has a line. */
  lemma {:induction false} OneDebitPerAccount(payments: seq<Payment>, i: nat, code: string)
    requires i < |PaymentDebits(payments)|
    ensures var debits := PaymentDebits(payments);
      && (forall j :: 0 <= j < |debits| && j != i ==> debits[j].code != debits[i].code)
      && debits[i] == Line(debits[i].code, PaidInto(payments, debits[i].code), 0) && debits[i].debit > 0
      && (PaidInto(payments, code) > 0 ==> exists j :: 0 <= j < |debits| && debits[j].code == code)
  {
    hide PaidInto, Debits, DebitOf;
    PaymentDebitLines(payments);
    CodesDiffer(payments);
    var debits := PaymentDebits(payments);
    assert DebitLine(debits[i]);
    PaymentSums(payments, debits[i].code);
    PaymentSums(payments, code);
    OnlyLine(debits, i);
    if forall j :: 0 <= j < |debits| ==> debits[j].code != code {
      NoLine(debits, code);
    }
  }

  ghost predicate DistinctCodes(lines: seq<Line>) {
    forall i, j :: 0 <= i < j < |lines| ==> lines[i].code != lines[j].code
  }

  lemma {:induction false} CodesDiffer(payments: seq<Payment>)
    ensures DistinctCodes(PaymentDebits(payments))
  {
    if payments != [] {
      CodesDiffer(payments[..|payments| - 1]);
      var front, last := PaymentDebits(payments[..|payments| - 1]), payments[|payments| - 1];
      DebitedCodesDiffer(front, AccountOf(last), last.amount);
    }
  }

  lemma DebitedCodesDiffer(front: seq<Line>, code: string, amount: int)
    requires DistinctCodes(front)
    ensures DistinctCodes(Debited(front, code, amount))
  {
    hide Bumped;
    BumpedShape(front, code, amount);
  }

  lemma {:induction false} NoLine(lines: seq<Line>, code: string)
    requires forall j :: 0 <= j < |lines| ==> lines[j].code != code
    ensures DebitOf(lines, code) == 0
  {
    if lines != [] {
      NoLine(lines[..|lines| - 1], code);
    }
  }

  lemma {:induction false} OnlyLine(lines: seq<Line>, i: nat)
    requires i < |lines| && forall j :: 0 <= j < |lines| && j != i ==> lines[j].code != lines[i].code
    ensures DebitOf(lines, lines[i].code) == lines[i].debit
  {
    var front := lines[..|lines| - 1];
    if i < |front| {
      OnlyLine(front, i);
    } else {
      NoLine(front, lines[i].code);
    }
  }

  lemma {:induction false} NoCredits(lines: seq<Line>, code: string)
    requires forall i :: 0 <= i < |lines| ==> DebitLine(lines[i])
    ensures Credits(lines) == 0 && CreditOf(lines, code) == 0 && LinesAllowed(lines)
  {
    if lines != [] {
      var front, last := lines[..|lines| - 1], lines[|lines| - 1];
      forall i | 0 <= i < |front| ensures DebitLine(front[i]) {
        assert DebitLine(lines[i]);
      }
      NoCredits(front, code);
      assert DebitLine(last);
      AllowedAppend(front, [last]);
      assert lines == front + [last];
    }
  }

  lemma FixedLines(o: Order, code: string)
    ensures var fixed := [Line(REVENUE, 0, o.total - o.tax), Line(VAT, 0, o.tax), Line(COGS, o.cost, 0), Line(INVENTORY, 0, o.cost)];
      && Debits(fixed) == o.cost && Credits(fixed) == o.total + o.cost
      && DebitOf(fixed, code) == (if code == COGS then o.cost else 0)
      && CreditOf(fixed, code) == (if code == REVENUE then o.total - o.tax else if code == VAT then o.tax
                                   else if code == INVENTORY then o.cost else 0)
      && (LinesAllowed(fixed) <==> o.tax <= o.total && 0 <= o.tax && 0 <= o.cost)
  {
    var a, b := Line(REVENUE, 0, o.total - o.tax), Line(VAT, 0, o.tax);
    var c, d := Line(COGS, o.cost, 0), Line(INVENTORY, 0, o.cost);
    OneLine(a, code);
    OneLine(b, code);
    OneLine(c, code);
    OneLine(d, code);
    DebitsAppend([a], [b]);
    DebitsAppend([c], [d]);
    DebitsAppend([a] + [b], [c] + [d]);
    OfAppend([a], [b], code);
    OfAppend([c], [d], code);
    OfAppend([a] + [b], [c] + [d], code);
    assert [a] + [b] + ([c] + [d]) == [a, b, c, d];
    assert LinesAllowed([a, b, c, d]) <==> LineAllowed(a) && LineAllowed(b) && LineAllowed(c) && LineAllowed(d) by {
      assert [a, b, c, d][0] == a && [a, b, c, d][1] == b && [a, b, c, d][2] == c && [a, b, c, d][3] == d;
    }
  }

  lemma {:induction false} SaleSums(o: Order, code: string)
    ensures Debits(SaleLines(o)) == Paid(o.payments) + o.cost && Credits(SaleLines(o)) == o.total + o.cost
    ensures LinesAllowed(SaleLines(o)) <==> o.tax <= o.total && 0 <= o.tax && 0 <= o.cost
    ensures Balance(SaleLines(o), code) ==
      PaidInto(o.payments, code) + (if code == COGS then o.cost else 0)
      - (if code == REVENUE then o.total - o.tax else if code == VAT then o.tax else if code == INVENTORY then o.cost else 0)
  {
    hide PaymentDebits, Debits, Credits, DebitOf, CreditOf, LinesAllowed, NonZeroLines, Paid, PaidInto, DebitLine;
    var debits := PaymentDebits(o.payments);
    var fixed := [Line(REVENUE, 0, o.total - o.tax), Line(VAT, 0, o.tax), Line(COGS, o.cost, 0), Line(INVENTORY, 0, o.cost)];
    PaymentDebitLines(o.payments);
    NoCredits(debits, code);
    PaymentSums(o.payments, code);
    FixedLines(o, code);
    DebitsAppend(debits, fixed);
    OfAppend(debits, fixed, code);
    AllowedAppend(debits, fixed);
    NonZeroKeepsSums(debits + fixed, code);
  }

  /** A first posting of a sale commits exactly when the payments add up to the total and the amounts are in range. */
  lemma {:induction false} SaleCommitsIff(entries: seq<Entry>, id: Id, o: Order)
    requires FindEntry(entries, SaleSource, id).None?
    ensures SalePosted(entries, id, Some(o)).1.Ok? <==>
      && (exists i :: 0 <= i < |o.payments| && o.payments[i].amount > 0)
      && Paid(o.payments) == o.total && 0 <= o.tax <= o.total && 0 <= o.cost
  {
    hide PaymentDebits, SaleLines, Debits, Credits, LinesAllowed, Paid;
    SaleSums(o, CASH);
    SomePayment(o.payments);
  }

  /** Why a first posting of a sale is refused, in this order; a refusal leaves the journal as it was. */
  lemma {:induction false} SaleRefusalSays(entries: seq<Entry>, id: Id, order: Option<Order>)
    requires FindEntry(entries, SaleSource, id).None?
    ensures var r := SalePosted(entries, id, order);
      && (r.1.Err? ==> r.0 == entries)
      && match order
         case None => r.1 == Err(OrderNotFound)
         case Some(o) =>
           if forall i :: 0 <= i < |o.payments| ==> o.payments[i].amount <= 0 then r.1 == Err(NoPayments)
           else if o.tax < 0 || o.total < o.tax || o.cost < 0 then r.1 == Err(CheckFailed)
           else if Paid(o.payments) != o.total then r.1 == Err(Unbalanced)
           else r.1.Ok?
  {
    hide PaymentDebits, SaleLines, Debits, Credits, LinesAllowed, Paid;
    if order.Some? {
      SaleSums(order.value, CASH);
      SomePayment(order.value.payments);
    }
  }

  lemma {:induction false} SomePayment(payments: seq<Payment>)
    ensures PaymentDebits(payments) == [] <==> forall i :: 0 <= i < |payments| ==> payments[i].amount <= 0
  {
    if payments != [] {
      var front, last := payments[..|payments| - 1], payments[|payments| - 1];
      SomePayment(front);
      assert payments == front + [last];
      if last.amount > 0 {
        BumpedShape(PaymentDebits(front), AccountOf(last), last.amount);
      } else {
        assert (forall i :: 0 <= i < |payments| ==> payments[i].amount <= 0)
          <==> forall i :: 0 <= i < |front| ==> front[i].amount <= 0;
      }
    }
  }

  /** The tender accounts receive what was paid into them, revenue the net, VAT the tax; cost moves from stock to expense. */
  lemma SaleEntrySays(o: Order)
    ensures var lines := SaleLines(o);
      && Balance(lines, CASH) == PaidInto(o.payments, CASH)
      && Balance(lines, CLEARING) == PaidInto(o.payments, CLEARING)
      && Balance(lines, RECEIVABLE) == PaidInto(o.payments, RECEIVABLE)
      && Balance(lines, REVENUE) == o.tax - o.total && Balance(lines, VAT) == -o.tax
      && Balance(lines, COGS) == o.cost && Balance(lines, INVENTORY) == -o.cost
      && Balance(lines, REFUNDS) == 0
      && PaidInto(o.payments, CASH) + PaidInto(o.payments, CLEARING) + PaidInto(o.payments, RECEIVABLE) == Paid(o.payments)
  {
    hide SaleLines, Balance, PaidInto, Paid;
    SaleSums(o, CASH);
    SaleSums(o, CLEARING);
    SaleSums(o, RECEIVABLE);
    SaleSums(o, REVENUE);
    SaleSums(o, VAT);
    SaleSums(o, COGS);
    SaleSums(o, INVENTORY);
    SaleSums(o, REFUNDS);
    Tenders(o.payments);
  }

  lemma {:induction false} Tenders(payments: seq<Payment>)
    ensures PaidInto(payments, CASH) + PaidInto(payments, CLEARING) + PaidInto(payments, RECEIVABLE) == Paid(payments)
    ensures PaidInto(payments, REVENUE) == PaidInto(payments, VAT) == PaidInto(payments, COGS) == 0
    ensures PaidInto(payments, INVENTORY) == PaidInto(payments, REFUNDS) == 0
  {
    if payments != [] {
      Tenders(payments[..|payments| - 1]);
    }
  }

  // ---------------------------------------------------------------- what refunds reverse

  lemma RefundSums(r: Refund, code: string)
    ensures Debits(RefundLines(r)) == r.amount && Credits(RefundLines(r)) == r.amount
    ensures LinesAllowed(RefundLines(r)) <==> 0 <= TaxPortion(r) <= r.amount
    ensures Balance(RefundLines(r), code) ==
      (if code == REFUNDS then r.amount - TaxPortion(r) else if code == VAT then TaxPortion(r)
       else if code == (if r.tender == "cash" then CASH else CLEARING) then -r.amount else 0)
  {
    hide TaxPortion, NonZeroLines;
    var a, b := Line(REFUNDS, r.amount - TaxPortion(r), 0), Line(VAT, TaxPortion(r), 0);
    var c := Line(if r.tender == "cash" then CASH else CLEARING, 0, r.amount);
    OneLine(a, code);
    OneLine(b, code);
    OneLine(c, code);
    DebitsAppend([a], [b]);
    DebitsAppend([a] + [b], [c]);
    OfAppend([a], [b], code);
    OfAppend([a] + [b], [c], code);
    assert [a] + [b] + [c] == [a, b, c];
    assert LinesAllowed([a, b, c]) <==> LineAllowed(a) && LineAllowed(b) && LineAllowed(c) by {
      assert [a, b, c][0] == a && [a, b, c][1] == b && [a, b, c][2] == c;
    }
    NonZeroKeepsSums([a, b, c], code);
  }

  /** A refund entry always balances; its first posting commits exactly when it is processed and the VAT portion is in range. */
  lemma {:induction false} RefundCommitsIff(entries: seq<Entry>, id: Id, r: Refund)
    requires FindEntry(entries, RefundSource, id).None?
    ensures RefundPosted(entries, id, Some(r)).1.Ok? <==> r.status == "processed" && 0 <= TaxPortion(r) <= r.amount
    ensures RefundPosted(entries, id, Some(r)).1 != Err(Unbalanced)
  {
    hide RefundLines, TaxPortion, Debits, Credits, LinesAllowed;
    RefundSums(r, CASH);
  }

  /** Why a first posting of a refund is refused. */
  lemma {:induction false} RefundRefusalSays(entries: seq<Entry>, id: Id, refund: Option<Refund>)
    requires FindEntry(entries, RefundSource, id).None?
    ensures var r := RefundPosted(entries, id, refund);
      && (r.1.Err? ==> r.0 == entries)
      && match refund
         case None => r.1 == Err(RefundNotFound)
         case Some(f) =>
           if f.status != "processed" then r.1 == Err(RefundNotProcessed)
           else if TaxPortion(f) < 0 || f.amount < TaxPortion(f) then r.1 == Err(CheckFailed)
           else r.1.Ok?
  {
    hide RefundLines, TaxPortion, Debits, Credits, LinesAllowed;
    if refund.Some? {
      RefundSums(refund.value, CASH);
    }
  }

  /** The portion is the refund's share of the order's tax, to the nearest unit; nothing for an order of nothing. */
  lemma PortionIsNearest(r: Refund)
    ensures r.orderTotal == 0 ==> TaxPortion(r) == 0
    ensures r.orderTotal > 0 ==>
      -r.orderTotal < 2 * (r.orderTotal * TaxPortion(r) - r.amount * r.orderTax) <= r.orderTotal
  {
    if r.orderTotal > 0 {
      HalfUpNear(r.amount * r.orderTax, r.orderTotal);
    }
  }

  /** For an order whose tax is within its total the portion is always in range. */
  lemma PortionInRange(r: Refund)
    requires 0 <= r.orderTax <= r.orderTotal && 0 <= r.amount
    ensures 0 <= TaxPortion(r) <= r.amount
  {
    if r.orderTotal > 0 {
      Wider(0, r.orderTax, r.amount);
      Wider(r.orderTax, r.orderTotal, r.amount);
      HalfUpMonotone(r.amount * r.orderTax, r.amount * r.orderTotal, r.orderTotal);
      HalfUpExact(r.amount, r.orderTotal);
    }
  }

  /** A full refund takes back exactly the sale's VAT, and what is left of revenue and refunds is nothing. */
  lemma FullRefundCancelsTheSale(o: Order, r: Refund)
    requires o.total > 0 && r.amount == r.orderTotal == o.total && r.orderTax == o.tax
    ensures TaxPortion(r) == o.tax
    ensures Balance(SaleLines(o), VAT) + Balance(RefundLines(r), VAT) == 0
    ensures Balance(SaleLines(o), REVENUE) + Balance(RefundLines(r), REFUNDS) == 0
  {
    WholeShare(o.tax, o.total);
    Commute(o.tax, o.total);
    hide SaleLines, RefundLines, Balance, HalfUp;
    SaleEntrySays(o);
    RefundSums(r, VAT);
    RefundSums(r, REFUNDS);
  }

  lemma Commute(x: int, y: int)
    ensures x * y == y * x
  {
  }

  /** Refund ids, amounts and tenders posted one after the other against one order. */
  datatype Partial = Partial(id: Id, amount: nat, tender: string)

  ghost function RefundSteps(parts: seq<Partial>, total: int, tax: int): (steps: seq<Step>)
    ensures |steps| == |parts|
  {
    if parts == [] then []
    else
      var p := parts[|parts| - 1];
      RefundSteps(parts[..|parts| - 1], total, tax) + [PostRefund(p.id, Some(Refund(p.amount, "processed", p.tender, total, tax)))]
  }

  ghost function Amounts(parts: seq<Partial>): (amounts: seq<nat>)
    ensures |amounts| == |parts|
  {
    if parts == [] then [] else Amounts(parts[..|parts| - 1]) + [parts[|parts| - 1].amount]
  }

  ghost predicate NotPosted(entries: seq<Entry>, parts: seq<Partial>) {
    && (forall i :: 0 <= i < |parts| ==> FindEntry(entries, RefundSource, parts[i].id).None?)
    && forall i, j :: 0 <= i < j < |parts| ==> parts[i].id != parts[j].id
  }

  lemma {:induction false} AllLinesPush(entries: seq<Entry>, e: Entry, code: string)
    ensures Balance(AllLines(entries + [e]), code) == Balance(AllLines(entries), code) + Balance(e.lines, code)
  {
    assert (entries + [e])[..|entries|] == entries;
    OfAppend(AllLines(entries), e.lines, code);
  }

  lemma {:induction false} FreshRefund(entries: seq<Entry>, r: Refund, id: Id)
    requires FindEntry(entries, RefundSource, id).None? && r.status == "processed" && 0 <= TaxPortion(r) <= r.amount
    ensures RefundPosted(entries, id, Some(r)).0 == entries + [Entry(RefundSource, id, RefundLines(r))]
  {
    hide RefundLines, TaxPortion, Debits, Credits, LinesAllowed;
    RefundSums(r, CASH);
  }

  lemma {:induction false} OthersStayFree(entries: seq<Entry>, id: Id, refund: Option<Refund>, other: Id)
    requires FindEntry(entries, RefundSource, other).None? && id != other
    ensures FindEntry(RefundPosted(entries, id, refund).0, RefundSource, other).None?
  {
    hide RefundLines, LinesAllowed, Debits, Credits;
    var after := RefundPosted(entries, id, refund).0;
    if after != entries {
      assert after[..|after| - 1] == entries;
    }
  }

  lemma {:induction false} StillFree(entries: seq<Entry>, parts: seq<Partial>, total: int, tax: int, other: Id)
    requires FindEntry(entries, RefundSource, other).None? && forall i :: 0 <= i < |parts| ==> parts[i].id != other
    ensures FindEntry(Run(entries, RefundSteps(parts, total, tax)), RefundSource, other).None?
  {
    hide RefundPosted, FindEntry;
    if parts != [] {
      var front, p := parts[..|parts| - 1], parts[|parts| - 1];
      assert forall i :: 0 <= i < |front| ==> front[i] == parts[i];
      StillFree(entries, front, total, tax, other);
      assert RefundSteps(parts, total, tax)[..|front|] == RefundSteps(front, total, tax);
      OthersStayFree(Run(entries, RefundSteps(front, total, tax)), p.id,
                     Some(Refund(p.amount, "processed", p.tender, total, tax)), other);
    }
  }

  /** The VAT account after the refunds. */
  lemma {:induction false} RefundsPost(entries: seq<Entry>, parts: seq<Partial>, total: nat, tax: nat)
    requires 0 < total && tax <= total && NotPosted(entries, parts)
    ensures var after := Run(entries, RefundSteps(parts, total, tax));
      Balance(AllLines(after), VAT) == Balance(AllLines(entries), VAT) + Shares(tax, Amounts(parts), total)
  {
    hide Balance, RefundLines, AllLines, RefundPosted, FindEntry;
    if parts != [] {
      var front, p := parts[..|parts| - 1], parts[|parts| - 1];
      assert forall i :: 0 <= i < |front| ==> front[i] == parts[i];
      RefundsPost(entries, front, total, tax);
      StillFree(entries, front, total, tax, p.id);
      var before := Run(entries, RefundSteps(front, total, tax));
      var r := Refund(p.amount, "processed", p.tender, total, tax);
      assert RefundSteps(parts, total, tax)[..|front|] == RefundSteps(front, total, tax);
      PortionInRange(r);
      FreshRefund(before, r, p.id);
      AllLinesPush(before, Entry(RefundSource, p.id, RefundLines(r)), VAT);
      RefundSums(r, VAT);
      Commute(p.amount, tax);
      assert Amounts(parts)[..|front|] == Amounts(front);
    }
  }

  /** Refunding an order in k parts takes back its VAT to within k/2 minor units. */
  lemma {:induction false} RefundsDrift(entries: seq<Entry>, parts: seq<Partial>, total: nat, tax: nat)
    requires 0 < total && tax <= total && NotPosted(entries, parts)
    requires PartSum(Amounts(parts)) == total
    ensures var after := Run(entries, RefundSteps(parts, total, tax));
      -|parts| <= 2 * (Balance(AllLines(after), VAT) - Balance(AllLines(entries), VAT) - tax) <= |parts|
  {
    hide Run, Balance, AllLines, Shares;
    RefundsPost(entries, parts, total, tax);
    SharesDrift(tax, Amounts(parts), total);
  }
}
