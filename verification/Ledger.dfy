/**
 The general ledger: a lazily seeded chart of accounts, posting templates, manual
 journal entries, storno reversal by reference, and the trial balance. One tenant
 is modelled; an account is identified by its code, which is unique per tenant.
 */
module Ledger {
  import opened Money
  import opened Options

  /** All that matters about a code is whether two are equal. */
  type Code = int

  /** How a sale is settled: "cash" itself, the methods that leave money owed, and the rest. */
  datatype Mode = Cash | Card | Upi | Wallet | RoomCharge | OnAccount | OtherMode

  datatype AccountType = Asset | Liability | Equity | Revenue | Expense
  datatype Account = Account(code: Code, kind: AccountType)
  datatype Line = Line(account: Code, debit: int, credit: int)
  datatype Entry = Entry(reference: string, lines: seq<Line>)
  datatype Book = Book(accounts: seq<Account>, entries: seq<Entry>)

  const CASH: Code := 1000
  const BANK: Code := 1010
  const RECEIVABLE: Code := 1200
  const INVENTORY: Code := 1400
  const PAYABLE: Code := 2000
  const GST: Code := 2100
  const SALES: Code := 4000
  const FOOD_SALES: Code := 4100
  const COGS: Code := 5000
  const COMMISSION: Code := 5100

  const STANDARD_CHART: seq<Account> := [
    Account(CASH, Asset), Account(BANK, Asset), Account(RECEIVABLE, Asset), Account(INVENTORY, Asset),
    Account(PAYABLE, Liability), Account(GST, Liability), Account(3000, Equity),
    Account(SALES, Revenue), Account(FOOD_SALES, Revenue),
    Account(COGS, Expense), Account(COMMISSION, Expense)
  ]

  // ---------- chart of accounts ----------

  predicate HasCode(accounts: seq<Account>, code: Code) {
    exists i :: 0 <= i < |accounts| && accounts[i].code == code
  }

  predicate Distinct(accounts: seq<Account>) {
    forall i, j :: 0 <= i < j < |accounts| ==> accounts[i].code != accounts[j].code
  }

  predicate Seeded(accounts: seq<Account>) {
    forall i :: 0 <= i < |STANDARD_CHART| ==> HasCode(accounts, STANDARD_CHART[i].code)
  }

  /** Inserts the first `n` standard accounts, leaving any code already present alone. */
  function Seed(accounts: seq<Account>, n: nat): (r: seq<Account>)
    requires n <= |STANDARD_CHART|
    ensures accounts <= r
    ensures Distinct(accounts) ==> Distinct(r)
    ensures forall i :: 0 <= i < n ==> HasCode(r, STANDARD_CHART[i].code)
    ensures Seeded(accounts) ==> r == accounts
  {
    if n == 0 then accounts
    else
      var before := Seed(accounts, n - 1);
      var a := STANDARD_CHART[n - 1];
      if HasCode(before, a.code) then before
      else
        var r := before + [a];
        assert r[|before|] == a;
        assert forall i :: 0 <= i < n - 1 ==> HasCode(r, STANDARD_CHART[i].code) by {
          forall i | 0 <= i < n - 1
            ensures HasCode(r, STANDARD_CHART[i].code)
          {
            KeepsCode(before, r, STANDARD_CHART[i].code);
          }
        }
        r
  }

  lemma KeepsCode(accounts: seq<Account>, more: seq<Account>, code: Code)
    requires accounts <= more && HasCode(accounts, code)
    ensures HasCode(more, code)
  {
    var i :| 0 <= i < |accounts| && accounts[i].code == code;
    assert more[i].code == code;
  }

  // ---------- sums ----------

  /** Debits minus credits that `lines` put on account `code`. */
  function Net(lines: seq<Line>, code: Code): int {
    if lines == [] then 0
    else
      var l := lines[|lines| - 1];
      Net(lines[..|lines| - 1], code) + if l.account == code then l.debit - l.credit else 0
  }

  function Imbalance(lines: seq<Line>): int {
    if lines == [] then 0
    else
      var l := lines[|lines| - 1];
      Imbalance(lines[..|lines| - 1]) + l.debit - l.credit
  }

  /** The movement of account `code` over all entries: a trial-balance row. */
  function Posted(entries: seq<Entry>, code: Code): int {
    if entries == [] then 0
    else Posted(entries[..|entries| - 1], code) + Net(entries[|entries| - 1].lines, code)
  }

  /** The sum of the trial balance: one row per account of the chart. */
  function TrialBalance(accounts: seq<Account>, entries: seq<Entry>): int {
    if accounts == [] then 0
    else
      TrialBalance(accounts[..|accounts| - 1], entries) + Posted(entries, accounts[|accounts| - 1].code)
  }

  predicate DebitNormal(a: Account) {
    a.kind == Asset || a.kind == Expense
  }

  /** Signed movement of the accounts on one natural side, each read positive on its side. */
  function SideMovement(accounts: seq<Account>, entries: seq<Entry>, debitSide: bool): int {
    if accounts == [] then 0
    else
      var a := accounts[|accounts| - 1];
      var p := Posted(entries, a.code);
      SideMovement(accounts[..|accounts| - 1], entries, debitSide)
      + if DebitNormal(a) != debitSide then 0 else if debitSide then p else -p
  }

  // ---------- posting templates ----------

  datatype Template =
    | PosSale(mode: Mode, tax: real, total: real, customer: bool)
    | OrderSale(mode: Mode, tax: real, total: real)
    | CostOfGoods(cost: real)
    | RoomRevenue(mode: Mode, tax: real, total: real)
    | SalesInvoice(tax: real, total: real)
    | CreditNote(tax: real, total: real)
    | GoodsReceipt(amount: real)
    | VendorPayment(mode: Mode, amount: real)
    | DebitNote(amount: real)
    | ChannelSale(tax: real, total: real)
    | ChannelFee(amount: real)

  function CashAccount(mode: Mode): Code {
    if mode == Cash then CASH else BANK
  }

  predicate IsCreditSettlement(mode: Mode) {
    mode == RoomCharge || mode == OnAccount
  }

  function SaleLegs(debitAccount: Code, revenue: Code, tax: real, total: real): seq<Line> {
    [Line(debitAccount, Round(total), 0), Line(revenue, 0, Round(total - tax)), Line(GST, 0, Round(tax))]
  }

  function TransferLegs(debitAccount: Code, creditAccount: Code, amount: real): seq<Line> {
    [Line(debitAccount, Round(amount), 0), Line(creditAccount, 0, Round(amount))]
  }

  /** The lines a template posts; None when it posts no entry at all. */
  function Legs(t: Template): Option<seq<Line>> {
    match t
    case PosSale(mode, tax, total, customer) =>
      if !IsCreditSettlement(mode) then Some(SaleLegs(CashAccount(mode), FOOD_SALES, tax, total))
      else if !customer then None
      else Some(SaleLegs(RECEIVABLE, FOOD_SALES, tax, total))
    case OrderSale(mode, tax, total) =>
      if Round(total) == 0 then None else Some(SaleLegs(CashAccount(mode), FOOD_SALES, tax, total))
    case CostOfGoods(cost) => if Round(cost) == 0 then None else Some(TransferLegs(COGS, INVENTORY, cost))
    case RoomRevenue(mode, tax, total) => Some(SaleLegs(CashAccount(mode), SALES, tax, total))
    case SalesInvoice(tax, total) => Some(SaleLegs(RECEIVABLE, SALES, tax, total))
    case CreditNote(tax, total) =>
      Some([Line(SALES, Round(total - tax), 0), Line(GST, Round(tax), 0), Line(RECEIVABLE, 0, Round(total))])
    case GoodsReceipt(amount) => Some(TransferLegs(INVENTORY, PAYABLE, amount))
    case VendorPayment(mode, amount) => Some(TransferLegs(PAYABLE, CashAccount(mode), amount))
    case DebitNote(amount) => Some(TransferLegs(PAYABLE, INVENTORY, amount))
    case ChannelSale(tax, total) => Some(SaleLegs(RECEIVABLE, SALES, Round(tax) as real, total))
    case ChannelFee(amount) => if Round(amount) <= 0 then None else Some(TransferLegs(COMMISSION, PAYABLE, amount))
  }

  /** The totals and taxes that come from NUMERIC(_, 2) columns are whole cents. */
  predicate WholeCents(t: Template) {
    (t.PosSale? || t.OrderSale? || t.RoomRevenue? || t.SalesInvoice? || t.CreditNote? || t.ChannelSale?)
    ==> IsWhole(t.tax) && IsWhole(t.total)
  }

  // ---------- steps ----------

  predicate Skipped(accounts: seq<Account>, l: Line) {
    (l.debit == 0 && l.credit == 0) || !HasCode(accounts, l.account)
  }

  function Kept(accounts: seq<Account>, lines: seq<Line>): (r: seq<Line>)
    ensures forall i :: 0 <= i < |r| ==> HasCode(accounts, r[i].account)
  {
    if lines == [] then []
    else
      var l := lines[|lines| - 1];
      Kept(accounts, lines[..|lines| - 1]) + if Skipped(accounts, l) then [] else [l]
  }

  function PostTo(book: Book, reference: string, lines: seq<Line>): Book {
    var accounts := Seed(book.accounts, |STANDARD_CHART|);
    Book(accounts, book.entries + [Entry(reference, Kept(accounts, lines))])
  }

  /** An empty reference is stored as NULL, which matches nothing. */
  predicate Under(e: Entry, reference: string) {
    reference != "" && e.reference == reference
  }

  function LinesUnder(entries: seq<Entry>, reference: string): seq<Line> {
    if entries == [] then []
    else
      var e := entries[|entries| - 1];
      LinesUnder(entries[..|entries| - 1], reference) + if Under(e, reference) then e.lines else []
  }

  function Swapped(lines: seq<Line>): (r: seq<Line>)
    ensures |r| == |lines|
    ensures forall i :: 0 <= i < |lines| ==> r[i] == Line(lines[i].account, lines[i].credit, lines[i].debit)
  {
    if lines == [] then []
    else
      var l := lines[|lines| - 1];
      Swapped(lines[..|lines| - 1]) + [Line(l.account, l.credit, l.debit)]
  }

  function ReversalOf(reference: string): string {
    reference + " REV"
  }

  function ReverseIn(book: Book, reference: string): Book {
    var lines := LinesUnder(book.entries, reference);
    if lines == [] then book
    else book.(entries := book.entries + [Entry(ReversalOf(reference), Swapped(lines))])
  }

  predicate AlreadyPosted(entries: seq<Entry>, reference: string) {
    exists i :: 0 <= i < |entries| && Under(entries[i], reference)
  }

  datatype RawLine = RawLine(account: Code, debit: real, credit: real)

  function RawImbalance(lines: seq<RawLine>): real {
    if lines == [] then 0.0
    else
      var l := lines[|lines| - 1];
      RawImbalance(lines[..|lines| - 1]) + l.debit - l.credit
  }

  /** NUMERIC(14, 2) rounds each amount as it is stored. */
  function Stored(lines: seq<RawLine>): (r: seq<Line>)
    ensures |r| == |lines|
    ensures forall i :: 0 <= i < |r| ==> r[i].account == lines[i].account
  {
    if lines == [] then []
    else
      var l := lines[|lines| - 1];
      Stored(lines[..|lines| - 1]) + [Line(l.account, Round(l.debit), Round(l.credit))]
  }

  predicate ManualAccepted(book: Book, lines: seq<RawLine>) {
    && lines != []
    && RawImbalance(lines) == 0.0
    && forall i :: 0 <= i < |lines| ==> HasCode(book.accounts, lines[i].account)
  }

  datatype Op =
    | Post(reference: string, template: Template)
    | PostOnce(reference: string, template: Template)
    | Manual(reference: string, lines: seq<RawLine>)
    | Reverse(reference: string)
    | AddAccount(account: Account)

  function Step(book: Book, op: Op): Book {
    match op
    case Post(reference, t) =>
      if Legs(t).None? then book else PostTo(book, reference, Legs(t).value)
    case PostOnce(reference, t) =>
      if Legs(t).None? || AlreadyPosted(book.entries, reference) then book
      else PostTo(book, reference, Legs(t).value)
    case Manual(reference, lines) =>
      if !ManualAccepted(book, lines) then book
      else book.(entries := book.entries + [Entry(reference, Stored(lines))])
    case Reverse(reference) => ReverseIn(book, reference)
    case AddAccount(a) =>
      if HasCode(book.accounts, a.code) then book else book.(accounts := book.accounts + [a])
  }

  function Run(book: Book, ops: seq<Op>): Book {
    if ops == [] then book else Step(Run(book, ops[..|ops| - 1]), ops[|ops| - 1])
  }

  predicate WholeLine(l: RawLine) {
    IsWhole(l.debit) && IsWhole(l.credit)
  }

  function RoundedDebits(lines: seq<RawLine>): int {
    if lines == [] then 0 else RoundedDebits(lines[..|lines| - 1]) + Round(lines[|lines| - 1].debit)
  }

  function RoundedCredits(lines: seq<RawLine>): int {
    if lines == [] then 0 else RoundedCredits(lines[..|lines| - 1]) + Round(lines[|lines| - 1].credit)
  }

  /** Postings of whole cents, and manual entries that still balance once rounded, if they did before. */
  predicate EvenOp(op: Op) {
    match op
    case Post(_, t) => WholeCents(t)
    case PostOnce(_, t) => WholeCents(t)
    case Manual(_, lines) => RawImbalance(lines) == 0.0 ==> RoundedDebits(lines) == RoundedCredits(lines)
    case Reverse(_) => true
    case AddAccount(_) => true
  }

  // ---------- the ledger as the handlers change it ----------

  class GeneralLedger {
    var accounts: seq<Account>
    var entries: seq<Entry>

    ghost function Value(): Book
      reads this
    {
      Book(accounts, entries)
    }

    constructor ()
      ensures Value() == Book([], [])
    {
      accounts, entries := [], [];
    }

    method EnsureChart()
      modifies this`accounts
      ensures accounts == Seed(old(accounts), |STANDARD_CHART|)
    {
      var i := 0;
      while i < |STANDARD_CHART|
        invariant 0 <= i <= |STANDARD_CHART|
        invariant accounts == Seed(old(accounts), i)
      {
        var a := STANDARD_CHART[i];
        if !HasCode(accounts, a.code) {
          accounts := accounts + [a];
        }
        i := i + 1;
      }
    }

    method PostJournal(reference: string, lines: seq<Line>)
      modifies this
      ensures Value() == PostTo(old(Value()), reference, lines)
    {
      EnsureChart();
      var kept: seq<Line> := [];
      var i := 0;
      while i < |lines|
        invariant 0 <= i <= |lines|
        invariant kept == Kept(accounts, lines[..i])
      {
        assert lines[..i + 1][..i] == lines[..i];
        var l := lines[i];
        if l.debit == 0 && l.credit == 0 {
        } else if HasCode(accounts, l.account) {
          kept := kept + [l];
        }
        i := i + 1;
      }
      assert lines[..i] == lines;
      entries := entries + [Entry(reference, kept)];
    }

    method ReverseByReference(reference: string) returns (posted: bool)
      modifies this`entries
      ensures Value() == ReverseIn(old(Value()), reference)
      ensures posted <==> entries != old(entries)
    {
      var src: seq<Line> := [];
      var i := 0;
      while i < |entries|
        invariant 0 <= i <= |entries|
        invariant src == LinesUnder(entries[..i], reference)
      {
        assert entries[..i + 1][..i] == entries[..i];
        if reference != "" && entries[i].reference == reference {
          src := src + entries[i].lines;
        }
        i := i + 1;
      }
      assert entries[..i] == entries;
      if src == [] {
        return false;
      }
      var swapped: seq<Line> := [];
      i := 0;
      while i < |src|
        invariant 0 <= i <= |src|
        invariant swapped == Swapped(src[..i])
      {
        assert src[..i + 1][..i] == src[..i];
        swapped := swapped + [Line(src[i].account, src[i].credit, src[i].debit)];
        i := i + 1;
      }
      assert src[..i] == src;
      entries := entries + [Entry(reference + " REV", swapped)];
      posted := true;
    }

    /** Returns false, with nothing written, for an entry the balance check or a foreign key refuses. */
    method CreateJournalEntry(description: string, reference: string, lines: seq<RawLine>) returns (accepted: bool)
      modifies this`entries
      ensures accepted <==> description != "" && ManualAccepted(old(Value()), lines)
      ensures Value() == if accepted then Step(old(Value()), Manual(reference, lines)) else old(Value())
    {
      if description == "" || lines == [] {
        return false;
      }
      var difference := 0.0;
      var rows: seq<Line> := [];
      var known := true;
      var i := 0;
      while i < |lines|
        invariant 0 <= i <= |lines|
        invariant difference == RawImbalance(lines[..i])
        invariant rows == Stored(lines[..i])
        invariant known <==> forall j :: 0 <= j < i ==> HasCode(accounts, lines[j].account)
      {
        assert lines[..i + 1][..i] == lines[..i];
        difference := difference + lines[i].debit - lines[i].credit;
        rows := rows + [Line(lines[i].account, Round(lines[i].debit), Round(lines[i].credit))];
        known := known && HasCode(accounts, lines[i].account);
        i := i + 1;
      }
      assert lines[..i] == lines;
      accepted := difference == 0.0 && known;
      if accepted {
        entries := entries + [Entry(reference, rows)];
      }
    }
  }
}
