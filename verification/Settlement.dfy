/**
 The restaurant and its ledger together. A payment that settles a bill posts the sale and
 its cost of goods under the bill's reference; a refund reverses that reference. Anything
 else may be posted in between under other references. Each handler is one step.
 */
module Settlement {
  import opened Money
  import opened Options
  import opened Ledger
  import opened DineIn
  import opened DineInTheorems
  import opened LedgerBalance
  import opened LedgerReversal

  /** What a settlement adds to its bill: whether somebody can owe it, and the cost booked. */
  datatype Sale = Sale(customer: bool, cost: int)

  datatype House = House(dine: State, book: Book, sales: map<nat, Sale>)

  datatype Event =
    | Dine(request: Request, customer: bool, cost: real)
    | Office(posting: Op)

  predicate Settles(st: State, op: Request) {
    op.DoPay? && Handle(st, op).Accepted? && Handle(st, op).state.bills[op.bill].status == Paid
  }

  predicate TakesBack(st: State, op: Request) {
    op.DoRefund? && Handle(st, op).Accepted?
  }

  function SaleOf(bill: Bill, mode: Mode, customer: bool): Template {
    PosSale(mode, bill.charges.taxAmount as real, bill.charges.total as real, customer)
  }

  function BookedCost(cost: real): int {
    if cost > 0.0 then Round(cost) else 0
  }

  function BookCost(book: Book, reference: string, cost: real): Book {
    if cost > 0.0 then Step(book, Post(reference, CostOfGoods(cost))) else book
  }

  function BookSale(book: Book, reference: string, sale: Template, cost: real): Book {
    BookCost(Step(book, Post(reference, sale)), reference, cost)
  }

  function Next(h: House, e: Event, ref: nat -> string): House {
    match e
    case Office(op) => h.(book := Step(h.book, op))
    case Dine(op, customer, cost) =>
      var dine := Apply(h.dine, op);
      if Settles(h.dine, op) then
        var sale := SaleOf(dine.bills[op.bill], op.payment.mode, customer);
        House(dine, BookSale(h.book, ref(op.bill), sale, cost), h.sales[op.bill := Sale(customer, BookedCost(cost))])
      else if TakesBack(h.dine, op) then House(dine, Step(h.book, Reverse(ref(op.bill))), h.sales)
      else h.(dine := dine)
  }

  function Trade(h: House, events: seq<Event>, ref: nat -> string): House {
    if events == [] then h else Next(Trade(h, events[..|events| - 1], ref), events[|events| - 1], ref)
  }

  /** The whole of a sale is debited by the method of the payment that settled it. */
  function SettlementAccount(mode: Mode): Code {
    if IsCreditSettlement(mode) then RECEIVABLE else CashAccount(mode)
  }

  /** What a paid bill has moved on each account; a sale on credit with nobody to owe it books its cost only. */
  function Expected(c: Charges, mode: Mode, sale: Sale, code: Code): int {
    SaleMovement(c, mode, sale.customer, code) + CostMovement(sale.cost, code)
  }

  function SaleMovement(c: Charges, mode: Mode, customer: bool, code: Code): int {
    if IsCreditSettlement(mode) && !customer then 0
    else if code == SettlementAccount(mode) then c.total
    else if code == FOOD_SALES then c.taxAmount - c.total
    else if code == GST then -c.taxAmount
    else 0
  }

  function CostMovement(cost: int, code: Code): int {
    if code == COGS then cost else if code == INVENTORY then -cost else 0
  }

  function StatusOf(bills: seq<Bill>, b: nat): BillStatus {
    if b < |bills| then bills[b].status else BillOpen
  }

  /** The ledger holds, under the bill's reference, exactly what the bill's last payment and sale say. */
  ghost predicate SaleBooked(entries: seq<Entry>, reference: string, c: Charges, last: Option<Payment>, sale: Sale) {
    && last.Some? && LinesUnder(entries, ReversalOf(reference)) == []
    && forall code :: Net(LinesUnder(entries, reference), code) == Expected(c, last.value.mode, sale, code)
  }

  ghost predicate Matches(h: House, b: nat, reference: string) {
    match StatusOf(h.dine.bills, b)
    case Paid =>
      b in h.sales && SaleBooked(h.book.entries, reference, h.dine.bills[b].charges, LastPayment(h.dine.payments, b),
          h.sales[b])
    case Refunded => forall code :: Effect(h.book.entries, reference, code) == 0
    case _ => LinesUnder(h.book.entries, reference) == [] && LinesUnder(h.book.entries, ReversalOf(reference)) == []
  }

  /** For every bill, the ledger holds exactly what the bill's status says. */
  ghost predicate Reconciles(h: House, ref: nat -> string) {
    forall b: nat :: Matches(h, b, ref(b))
  }

  // ---------- postings ----------

  lemma SaleLegsNet(debitAccount: Code, tax: int, total: int, code: Code)
    requires debitAccount != FOOD_SALES && debitAccount != GST
    ensures Net(SaleLegs(debitAccount, FOOD_SALES, tax as real, total as real), code)
         == if code == debitAccount then total else if code == FOOD_SALES then tax - total else if code ==
             GST then -tax else 0
  {
    RoundWhole(total);
    RoundWhole(tax);
    RoundWhole(total - tax);
    assert (total - tax) as real == total as real - tax as real;
    var a, b, c := Line(debitAccount, total, 0), Line(FOOD_SALES, 0, total - tax), Line(GST, 0, tax);
    assert SaleLegs(debitAccount, FOOD_SALES, tax as real, total as real) == [a, b, c];
    ThreeLines(a, b, c, code);
    TwoLines(a, b, code);
    TwoLines(b, c, code);
    TwoLines(c, a, code);
  }

  lemma CostNet(cost: real, code: Code)
    requires Legs(CostOfGoods(cost)).Some?
    ensures Net(Legs(CostOfGoods(cost)).value, code) == CostMovement(Round(cost), code)
  {
    var legs := Legs(CostOfGoods(cost)).value;
    TwoLines(legs[0], legs[1], code);
    TwoLines(legs[1], legs[0], code);
  }

  lemma SaleIsForeign(book: Book, reference: string, sale: Template, cost: real, other: string)
    requires reference != other && reference != ReversalOf(other)
    ensures SameUnder(BookSale(book, reference, sale, cost), book, other)
  {
    ForeignKeepsLines(book, Post(reference, sale), other);
    ForeignKeepsLines(Step(book, Post(reference, sale)), Post(reference, CostOfGoods(cost)), other);
  }

  lemma CostAdds(book: Book, reference: string, cost: real, code: Code)
    requires reference != ""
    ensures var book' := BookCost(book, reference, cost);
            && Net(LinesUnder(book'.entries, reference), code)
               == Net(LinesUnder(book.entries, reference), code) + CostMovement(BookedCost(cost), code)
            && LinesUnder(book'.entries, ReversalOf(reference)) == LinesUnder(book.entries, ReversalOf(reference))
  {
    if cost > 0.0 && Legs(CostOfGoods(cost)).Some? {
      PostAdds(book, reference, CostOfGoods(cost), code);
      CostNet(cost, code);
    }
  }

  lemma SaleAdds(book: Book, reference: string, bill: Bill, mode: Mode, customer: bool, code: Code)
    requires reference != "" && LinesUnder(book.entries, reference) == []
    ensures var book' := Step(book, Post(reference, SaleOf(bill, mode, customer)));
            && Net(LinesUnder(book'.entries, reference), code) == SaleMovement(bill.charges, mode, customer, code)
            && LinesUnder(book'.entries, ReversalOf(reference)) == LinesUnder(book.entries, ReversalOf(reference))
  {
    var sale := SaleOf(bill, mode, customer);
    if Legs(sale).Some? {
      SaleLegsNet(SettlementAccount(mode), bill.charges.taxAmount, bill.charges.total, code);
      PostAdds(book, reference, sale, code);
    }
  }

  lemma SettlementBooks(book: Book, reference: string, bill: Bill, mode: Mode, customer: bool, cost: real, code: Code)
    requires reference != "" && LinesUnder(book.entries, reference) == []
    ensures var book' := BookSale(book, reference, SaleOf(bill, mode, customer), cost);
            && Net(LinesUnder(book'.entries, reference), code)
               == Expected(bill.charges, mode, Sale(customer, BookedCost(cost)), code)
            && LinesUnder(book'.entries, ReversalOf(reference)) == LinesUnder(book.entries, ReversalOf(reference))
  {
    SaleAdds(book, reference, bill, mode, customer, code);
    CostAdds(Step(book, Post(reference, SaleOf(bill, mode, customer))), reference, cost, code);
  }

  // ---------- steps ----------

  /** A request changes whether a bill is paid or refunded only by settling or refunding it. */
  lemma StatusStep(st: State, op: Request, b: nat)
    ensures var before, after := StatusOf(st.bills, b), StatusOf(Apply(st, op).bills, b);
            if Settles(st, op) && op.bill == b then before != Paid && before != Refunded && after == Paid
            else if TakesBack(st, op) && op.bill == b then before != Refunded && after == Refunded
            else (before == Paid <==> after == Paid) && (before == Refunded <==> after == Refunded)
                 && (before == Paid ==> Apply(st, op).bills[b].charges == st.bills[b].charges)
  {
  }

  lemma OtherBill(h: House, h': House, b: nat, reference: string)
    requires Matches(h, b, reference) && SameUnder(h'.book, h.book, reference)
    requires var before, after := StatusOf(h.dine.bills, b), StatusOf(h'.dine.bills, b);
             && (before == Paid <==> after == Paid) && (before == Refunded <==> after == Refunded)
             && (before == Paid ==> h'.dine.bills[b].charges == h.dine.bills[b].charges)
    requires b in h.sales ==> b in h'.sales && h'.sales[b] == h.sales[b]
    requires LastPayment(h'.dine.payments, b) == LastPayment(h.dine.payments, b) || StatusOf(h.dine.bills, b) != Paid
    ensures Matches(h', b, reference)
  {
    EffectSame(h'.book, h.book, reference);
  }

  lemma RefundedBill(h: House, b: nat, reference: string)
    requires Matches(h, b, reference) && reference != "" && StatusOf(h.dine.bills, b) != Refunded
    ensures forall code :: Effect(Step(h.book, Reverse(reference)).entries, reference, code) == 0
  {
    forall code
      ensures Effect(Step(h.book, Reverse(reference)).entries, reference, code) == 0
    {
      ReversalCancels(h.book, reference, code);
    }
  }

  lemma SettlementIsBooked(book: Book, reference: string, bill: Bill, customer: bool, cost: real, last: Payment)
    requires reference != "" && LinesUnder(book.entries, reference) == []
    requires LinesUnder(book.entries, ReversalOf(reference)) == []
    ensures SaleBooked(BookSale(book, reference, SaleOf(bill, last.mode, customer), cost).entries, reference,
              bill.charges,
                       Some(last), Sale(customer, BookedCost(cost)))
  {
    var entries := BookSale(book, reference, SaleOf(bill, last.mode, customer), cost).entries;
    forall code
      ensures Net(LinesUnder(entries, reference), code) ==
                Expected(bill.charges, last.mode, Sale(customer, BookedCost(cost)), code)
      ensures LinesUnder(entries, ReversalOf(reference)) == []
    {
      SettlementBooks(book, reference, bill, last.mode, customer, cost, code);
    }
  }

  /** The payment that settles a bill is its last. */
  lemma SettlingPayment(st: State, op: Request)
    requires Settles(st, op)
    ensures LastPayment(Apply(st, op).payments, op.bill) ==
              Some(Payment(op.bill, op.payment.mode, Round(op.payment.amount)))
    ensures StatusOf(st.bills, op.bill) != Paid && StatusOf(st.bills, op.bill) != Refunded
    ensures StatusOf(Apply(st, op).bills, op.bill) == Paid
  {
    StatusStep(st, op, op.bill);
    LastPaymentOne(st.payments, Payment(op.bill, op.payment.mode, Round(op.payment.amount)), op.bill);
  }

  lemma SettledBill(h: House, h': House, e: Event, ref: nat -> string)
    requires Numbered(ref) && e.Dine? && Settles(h.dine, e.request) && Matches(h, e.request.bill, ref(e.request.bill))
    requires h' == Next(h, e, ref)
    ensures Matches(h', e.request.bill, ref(e.request.bill))
  {
    var b, p := e.request.bill, e.request.payment;
    SettlingPayment(h.dine, e.request);
    SettlementIsBooked(h.book, ref(b), h'.dine.bills[b], e.customer, e.cost, Payment(b, p.mode, Round(p.amount)));
  }

  /** A request records at most one payment, on the bill it pays. */
  lemma PaymentStep(st: State, op: Request, b: nat)
    ensures LastPayment(Apply(st, op).payments, b) == LastPayment(st.payments, b)
         || (op.DoPay? && op.bill == b && StatusOf(st.bills, b) != Paid)
  {
    if op.DoPay? && Handle(st, op).Accepted? {
      LastPaymentOne(st.payments, Payment(op.bill, op.payment.mode, Round(op.payment.amount)), b);
    }
  }

  lemma DineStep(h: House, e: Event, ref: nat -> string, b: nat)
    requires Numbered(ref) && e.Dine? && Matches(h, b, ref(b))
    ensures Matches(Next(h, e, ref), b, ref(b))
  {
    var op, h' := e.request, Next(h, e, ref);
    if Settles(h.dine, op) && op.bill == b {
      SettledBill(h, h', e, ref);
    } else {
      StatusStep(h.dine, op, b);
      PaymentStep(h.dine, op, b);
      if TakesBack(h.dine, op) && op.bill == b {
        RefundedBill(h, b, ref(b));
      } else {
        ElsewhereKeeps(h, e, ref, b);
        OtherBill(h, h', b, ref(b));
      }
    }
  }

  /** What a request books under its own bill's reference, no other bill sees. */
  lemma ElsewhereKeeps(h: House, e: Event, ref: nat -> string, b: nat)
    requires Numbered(ref) && e.Dine?
    requires (Settles(h.dine, e.request) || TakesBack(h.dine, e.request)) ==> e.request.bill != b
    ensures SameUnder(Next(h, e, ref).book, h.book, ref(b))
  {
    var op := e.request;
    if Settles(h.dine, op) {
      var sale := SaleOf(Apply(h.dine, op).bills[op.bill], op.payment.mode, e.customer);
      SaleIsForeign(h.book, ref(op.bill), sale, e.cost, ref(b));
    } else if TakesBack(h.dine, op) {
      ReversalIsForeign(ref(op.bill), ref(b));
      ForeignKeepsLines(h.book, Reverse(ref(op.bill)), ref(b));
    }
  }

  /** Every posting made by the office keeps clear of the bills' references. */
  ghost predicate KeepsClear(e: Event, ref: nat -> string) {
    e.Office? ==> forall b: nat :: Foreign(e.posting, ref(b))
  }

  /**
   In every run, for every bill: while it is unpaid the ledger knows nothing of it; once
   paid, the account of its last payment's method holds the whole total, F&B revenue its net,
   GST its tax, cost and inventory the cost booked, and no other account anything; once
   refunded, its sale, its cost and their reversal move no account at all.
   */
  lemma {:induction false} BooksReconcile(start: House, events: seq<Event>, ref: nat -> string)
    requires Numbered(ref) && Reconciles(start, ref)
    requires forall i :: 0 <= i < |events| ==> KeepsClear(events[i], ref)
    ensures Reconciles(Trade(start, events, ref), ref)
  {
    if events != [] {
      var rest, e := events[..|events| - 1], events[|events| - 1];
      BooksReconcile(start, rest, ref);
      var h := Trade(start, rest, ref);
      forall b: nat
        ensures Matches(Next(h, e, ref), b, ref(b))
      {
        assert Matches(h, b, ref(b));
        if e.Dine? {
          DineStep(h, e, ref, b);
        } else {
          ForeignKeepsLines(h.book, e.posting, ref(b));
          OtherBill(h, Next(h, e, ref), b, ref(b));
        }
      }
    }
  }

  /** What a paid bill has put on each account, the codes written out. */
  predicate PaidOnAccounts(c: Charges, mode: Mode, sale: Sale, code: int, net: int) {
    if code == 5000 then net == sale.cost
    else if code == 1400 then net == -sale.cost
    else if (mode == RoomCharge || mode == OnAccount) && !sale.customer then net == 0
    else if code == 4100 then net == c.taxAmount - c.total
    else if code == 2100 then net == -c.taxAmount
    else if code == 1000 then net == (if mode == Cash then c.total else 0)
    else if code == 1010 then net == (if mode in {Card, Upi, Wallet, OtherMode} then c.total else 0)
    else if code == 1200 then net == (if mode == RoomCharge || mode == OnAccount then c.total else 0)
    else net == 0
  }

  lemma ExpectedOnAccounts(c: Charges, mode: Mode, sale: Sale, code: int)
    ensures PaidOnAccounts(c, mode, sale, code, Expected(c, mode, sale, code))
  {
  }

  /**
   In every run, a paid bill whose last payment was cash has its whole total in cash 1000; by
   card, UPI or wallet, at the bank 1010; charged to the room of a customer, in the receivable
   1200; with the net in 4100, the tax in 2100, and the cost in 5000 out of 1400.
   */
  lemma PaidBillAccounts(start: House, events: seq<Event>, ref: nat -> string, b: nat, code: int)
    requires Numbered(ref) && Reconciles(start, ref)
    requires forall i :: 0 <= i < |events| ==> KeepsClear(events[i], ref)
    ensures var h := Trade(start, events, ref);
            StatusOf(h.dine.bills, b) == Paid ==>
              && LastPayment(h.dine.payments, b).Some? && b in h.sales
              && PaidOnAccounts(h.dine.bills[b].charges, LastPayment(h.dine.payments, b).value.mode, h.sales[b], code,
                                Net(LinesUnder(h.book.entries, ref(b)), code))
  {
    BooksReconcile(start, events, ref);
    var h := Trade(start, events, ref);
    assert Matches(h, b, ref(b));
    if StatusOf(h.dine.bills, b) == Paid {
      ExpectedOnAccounts(h.dine.bills[b].charges, LastPayment(h.dine.payments, b).value.mode, h.sales[b], code);
    }
  }

  /** The payment that settles a bill books the cost it comes with, and records who can owe it. */
  lemma CostIsBooked(h: House, e: Event, ref: nat -> string)
    requires Numbered(ref) && e.Dine? && Settles(h.dine, e.request) && Matches(h, e.request.bill, ref(e.request.bill))
    ensures var b, h' := e.request.bill, Next(h, e, ref);
            var cost := if e.cost > 0.0 then Round(e.cost) else 0;
            && b in h'.sales && h'.sales[b] == Sale(e.customer, cost)
            && Net(LinesUnder(h'.book.entries, ref(b)), 5000) == cost
            && Net(LinesUnder(h'.book.entries, ref(b)), 1400) == -cost
  {
    var b, h' := e.request.bill, Next(h, e, ref);
    SettledBill(h, h', e, ref);
    SettlingPayment(h.dine, e.request);
    SaleIsRecorded(h, e, ref);
    CostOfBooked(h'.book.entries, ref(b), h'.dine.bills[b].charges, LastPayment(h'.dine.payments, b), h'.sales[b]);
  }

  lemma SaleIsRecorded(h: House, e: Event, ref: nat -> string)
    requires e.Dine? && Settles(h.dine, e.request)
    ensures var b, h' := e.request.bill, Next(h, e, ref);
            && b in h'.sales && b < |h'.dine.bills|
            && h'.sales[b] == Sale(e.customer, if e.cost > 0.0 then Round(e.cost) else 0)
  {
  }

  lemma CostOfBooked(entries: seq<Entry>, reference: string, c: Charges, last: Option<Payment>, sale: Sale)
    requires SaleBooked(entries, reference, c, last, sale)
    ensures Net(LinesUnder(entries, reference), 5000) == sale.cost
    ensures Net(LinesUnder(entries, reference), 1400) == -sale.cost
  {
  }

  /** A bill paid part in cash and the rest by card leaves nothing in cash: all of it is at the bank. */
  lemma LastPaymentTakesAll(h: House, b: nat, reference: string)
    requires Matches(h, b, reference) && StatusOf(h.dine.bills, b) == Paid
    ensures var last := LastPayment(h.dine.payments, b);
            && last.Some?
            && (!IsCreditSettlement(last.value.mode) && last.value.mode != Cash ==>
                  Net(LinesUnder(h.book.entries, reference), CASH) == 0
                  && Net(LinesUnder(h.book.entries, reference), BANK) == h.dine.bills[b].charges.total)
  {
  }

  // ---------- the trial balance ----------

  lemma SaleBalanced(book: Book, reference: string, bill: Bill, mode: Mode, customer: bool, cost: real)
    requires Balanced(book)
    ensures Balanced(BookSale(book, reference, SaleOf(bill, mode, customer), cost))
  {
    StepBalanced(book, Post(reference, SaleOf(bill, mode, customer)));
    StepBalanced(Step(book, Post(reference, SaleOf(bill, mode, customer))), Post(reference, CostOfGoods(cost)));
  }

  lemma HouseStepBalanced(h: House, e: Event, ref: nat -> string)
    requires Balanced(h.book) && (e.Office? ==> EvenOp(e.posting))
    ensures Balanced(Next(h, e, ref).book)
  {
    if e.Office? {
      StepBalanced(h.book, e.posting);
    } else if Settles(h.dine, e.request) {
      var op := e.request;
      SaleBalanced(h.book, ref(op.bill), Apply(h.dine, op).bills[op.bill], op.payment.mode, e.customer, e.cost);
    } else if TakesBack(h.dine, e.request) {
      StepBalanced(h.book, Reverse(ref(e.request.bill)));
    }
  }

  /** The trial balance is zero after every run of the restaurant and the office beside it. */
  lemma {:induction false} HouseTrialBalance(start: House, events: seq<Event>, ref: nat -> string)
    requires Balanced(start.book) && forall i :: 0 <= i < |events| && events[i].Office? ==> EvenOp(events[i].posting)
    ensures var b := Trade(start, events, ref).book; Balanced(b) && TrialBalance(b.accounts, b.entries) == 0
  {
    if events != [] {
      HouseTrialBalance(start, events[..|events| - 1], ref);
      HouseStepBalanced(Trade(start, events[..|events| - 1], ref), events[|events| - 1], ref);
    }
    BalancedBookSumsToZero(Trade(start, events, ref).book.accounts, Trade(start, events, ref).book.entries);
  }

  /** A restaurant that has not opened, on any ledger that mentions no bill, reconciles. */
  lemma FreshHouseReconciles(dine: State, book: Book, ref: nat -> string)
    requires Fresh(dine)
    requires forall b: nat :: LinesUnder(book.entries, ref(b)) ==
               [] && LinesUnder(book.entries, ReversalOf(ref(b))) == []
    ensures Reconciles(House(dine, book, map[]), ref)
  {
  }
}
