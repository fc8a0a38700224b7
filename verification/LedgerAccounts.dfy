/** Which accounts each posting moves, and by how much: one line per account, codes written out. */
module LedgerAccounts {
  import opened Money
  import opened Ledger
  import opened LedgerBalance

  /** Debits less credits that a template puts on the account with this code. */
  function Moved(t: Template, code: int): int {
    if Legs(t).Some? then Net(Legs(t).value, code) else 0
  }

  lemma ThreeLegs(t: Template, a: Line, b: Line, c: Line, code: int)
    requires Legs(t).Some? && Legs(t).value == [a, b, c]
    ensures Moved(t, code) == (if a.account == code then a.debit - a.credit else 0)
                              + (if b.account == code then b.debit - b.credit else 0)
                              + (if c.account == code then c.debit - c.credit else 0)
  {
    ThreeLines(a, b, c, code);
    TwoLines(a, b, code);
    TwoLines(b, c, code);
    TwoLines(c, a, code);
  }

  lemma TwoLegs(t: Template, a: Line, b: Line, code: int)
    requires Legs(t).Some? && Legs(t).value == [a, b]
    ensures Moved(t, code) == (if a.account == code then a.debit - a.credit else 0)
                              + (if b.account == code then b.debit - b.credit else 0)
  {
    TwoLines(a, b, code);
    TwoLines(b, a, code);
  }

  // ---------- sales ----------

  /**
   A restaurant sale is debited to cash 1000 when paid in cash, to the receivable 1200 when
   charged to a room or an account that somebody owes, to the bank 1010 otherwise; revenue is
   4100 and tax 2100. On credit with nobody to owe it, nothing is posted.
   */
  lemma PosSaleMoves(mode: Mode, tax: real, total: real, customer: bool, code: int)
    ensures var moved := Moved(PosSale(mode, tax, total, customer), code);
            if (mode == RoomCharge || mode == OnAccount) && !customer then moved == 0
            else if code == 4100 then moved == -Round(total - tax)
            else if code == 2100 then moved == -Round(tax)
            else if code == 1000 then moved == (if mode == Cash then Round(total) else 0)
            else if code == 1200 then moved == (if mode == RoomCharge || mode == OnAccount then Round(total) else 0)
            else if code == 1010 then moved == (if mode in {Card, Upi, Wallet, OtherMode} then Round(total) else 0)
            else moved == 0
  {
    var t := PosSale(mode, tax, total, customer);
    if Legs(t).Some? {
      var ls := Legs(t).value;
      ThreeLegs(t, ls[0], ls[1], ls[2], code);
    }
  }

  /** An order is debited to cash or to the bank; of nothing, nothing is posted. */
  lemma OrderSaleMoves(mode: Mode, tax: real, total: real, code: int)
    ensures var moved := Moved(OrderSale(mode, tax, total), code);
            if Round(total) == 0 then moved == 0
            else if code == 4100 then moved == -Round(total - tax)
            else if code == 2100 then moved == -Round(tax)
            else if code == 1000 then moved == (if mode == Cash then Round(total) else 0)
            else if code == 1010 then moved == (if mode == Cash then 0 else Round(total))
            else moved == 0
  {
    var t := OrderSale(mode, tax, total);
    if Legs(t).Some? {
      var ls := Legs(t).value;
      ThreeLegs(t, ls[0], ls[1], ls[2], code);
    }
  }

  /** Room revenue is 4000. */
  lemma RoomRevenueMoves(mode: Mode, tax: real, total: real, code: int)
    ensures var moved := Moved(RoomRevenue(mode, tax, total), code);
            if code == 4000 then moved == -Round(total - tax)
            else if code == 2100 then moved == -Round(tax)
            else if code == 1000 then moved == (if mode == Cash then Round(total) else 0)
            else if code == 1010 then moved == (if mode == Cash then 0 else Round(total))
            else moved == 0
  {
    var t := RoomRevenue(mode, tax, total);
    var ls := Legs(t).value;
    ThreeLegs(t, ls[0], ls[1], ls[2], code);
  }

  /** Cost of goods 5000 out of inventory 1400. */
  lemma CostOfGoodsMoves(cost: real, code: int)
    ensures Moved(CostOfGoods(cost), code)
         == if code == 5000 then Round(cost) else if code == 1400 then -Round(cost) else 0
  {
    var t := CostOfGoods(cost);
    if Legs(t).Some? {
      TwoLegs(t, Legs(t).value[0], Legs(t).value[1], code);
    }
  }

  // ---------- documents ----------

  lemma InvoiceMoves(tax: real, total: real, code: int)
    ensures var moved := Moved(SalesInvoice(tax, total), code);
            if code == 1200 then moved == Round(total)
            else if code == 4000 then moved == -Round(total - tax)
            else if code == 2100 then moved == -Round(tax)
            else moved == 0
  {
    var t := SalesInvoice(tax, total);
    var ls := Legs(t).value;
    ThreeLegs(t, ls[0], ls[1], ls[2], code);
  }

  /** A credit note is the invoice taken back, account by account. */
  lemma CreditNoteNegates(tax: real, total: real, code: int)
    ensures Moved(CreditNote(tax, total), code) == -Moved(SalesInvoice(tax, total), code)
  {
    var t := CreditNote(tax, total);
    var ls := Legs(t).value;
    ThreeLegs(t, ls[0], ls[1], ls[2], code);
    InvoiceMoves(tax, total, code);
  }

  lemma GoodsReceiptMoves(amount: real, code: int)
    ensures Moved(GoodsReceipt(amount), code)
         == if code == 1400 then Round(amount) else if code == 2000 then -Round(amount) else 0
  {
    var t := GoodsReceipt(amount);
    TwoLegs(t, Legs(t).value[0], Legs(t).value[1], code);
  }

  /** A debit note is the receipt taken back. */
  lemma DebitNoteNegates(amount: real, code: int)
    ensures Moved(DebitNote(amount), code) == -Moved(GoodsReceipt(amount), code)
  {
    var t := DebitNote(amount);
    TwoLegs(t, Legs(t).value[0], Legs(t).value[1], code);
    GoodsReceiptMoves(amount, code);
  }

  /** A vendor is paid out of cash or the bank. */
  lemma VendorPaymentMoves(mode: Mode, amount: real, code: int)
    ensures var moved := Moved(VendorPayment(mode, amount), code);
            if code == 2000 then moved == Round(amount)
            else if code == 1000 then moved == (if mode == Cash then -Round(amount) else 0)
            else if code == 1010 then moved == (if mode == Cash then 0 else -Round(amount))
            else moved == 0
  {
    var t := VendorPayment(mode, amount);
    TwoLegs(t, Legs(t).value[0], Legs(t).value[1], code);
  }

  /** A channel owes the whole price; revenue is what is left of it without the rounded tax. */
  lemma ChannelSaleMoves(tax: real, total: real, code: int)
    ensures var moved := Moved(ChannelSale(tax, total), code);
            if code == 1200 then moved == Round(total)
            else if code == 4000 then moved == -Round(total - Round(tax) as real)
            else if code == 2100 then moved == -Round(tax)
            else moved == 0
  {
    var t := ChannelSale(tax, total);
    var ls := Legs(t).value;
    RoundWhole(Round(tax));
    ThreeLegs(t, ls[0], ls[1], ls[2], code);
  }

  lemma ChannelFeeMoves(amount: real, code: int)
    ensures Moved(ChannelFee(amount), code)
         == if Round(amount) <= 0 then 0
            else if code == 5100 then Round(amount)
            else if code == 2000 then -Round(amount)
            else 0
  {
    var t := ChannelFee(amount);
    if Legs(t).Some? {
      TwoLegs(t, Legs(t).value[0], Legs(t).value[1], code);
    }
  }

  // ---------- the accounting equation ----------

  function KindMovement(accounts: seq<Account>, entries: seq<Entry>, kind: AccountType): int {
    if accounts == [] then 0
    else
      var a := accounts[|accounts| - 1];
      KindMovement(accounts[..|accounts| - 1], entries, kind) + if a.kind == kind then Posted(entries, a.code) else 0
  }

  lemma {:induction false} KindsMakeTheSides(accounts: seq<Account>, entries: seq<Entry>)
    ensures SideMovement(accounts, entries, true)
         == KindMovement(accounts, entries, Asset) + KindMovement(accounts, entries, Expense)
    ensures SideMovement(accounts, entries, false)
         == -KindMovement(accounts, entries, Liability) - KindMovement(accounts, entries, Equity)
            - KindMovement(accounts, entries, Revenue)
  {
    if accounts != [] {
      KindsMakeTheSides(accounts[..|accounts| - 1], entries);
    }
  }

  /**
   After every step of every run of even postings, what the assets and expenses have gained the
   liabilities, the equity and the revenue have gained on their side.
   */
  lemma AccountingEquation(book: Book, ops: seq<Op>, k: nat)
    requires Balanced(book) && k <= |ops|
    requires forall i :: 0 <= i < |ops| ==> EvenOp(ops[i])
    ensures var b := Run(book, ops[..k]);
            KindMovement(b.accounts, b.entries, Asset) + KindMovement(b.accounts, b.entries, Expense)
            == -(KindMovement(b.accounts, b.entries, Liability) + KindMovement(b.accounts, b.entries, Equity)
                 + KindMovement(b.accounts, b.entries, Revenue))
  {
    TrialBalanceOfEveryRun(book, ops, k);
    KindsMakeTheSides(Run(book, ops[..k]).accounts, Run(book, ops[..k]).entries);
  }

  /** The chart a new tenant is given. */
  lemma NewChart(code: int, kind: AccountType)
    ensures Account(code, kind) in Seed([], |STANDARD_CHART|)
            <==> || (kind == Asset && (code == 1000 || code == 1010 || code == 1200 || code == 1400))
                 || (kind == Liability && (code == 2000 || code == 2100))
                 || (kind == Equity && code == 3000)
                 || (kind == Revenue && (code == 4000 || code == 4100))
                 || (kind == Expense && (code == 5000 || code == 5100))
  {
    SeedsAll(|STANDARD_CHART|);
    assert STANDARD_CHART[..|STANDARD_CHART|] == STANDARD_CHART;
  }

  lemma {:induction false} SeedsAll(n: nat)
    requires n <= |STANDARD_CHART|
    ensures Seed([], n) == STANDARD_CHART[..n]
  {
    if n > 0 {
      SeedsAll(n - 1);
      StandardIsDistinct();
      LacksCode(STANDARD_CHART, n - 1);
      SeedsOne(STANDARD_CHART, n - 1);
    }
  }

  lemma StandardIsDistinct()
    ensures Distinct(STANDARD_CHART)
  {
  }

  lemma LacksCode(accounts: seq<Account>, n: nat)
    requires Distinct(accounts) && n < |accounts|
    ensures !HasCode(accounts[..n], accounts[n].code)
  {
  }

  lemma SeedsOne(accounts: seq<Account>, n: nat)
    requires n < |accounts|
    ensures accounts[..n] + [accounts[n]] == accounts[..n + 1]
  {
  }
}
