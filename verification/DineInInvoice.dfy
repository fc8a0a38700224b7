/** The tax invoice printed for a dine-in bill, against what the bill charges. */
module DineInInvoice {
  import opened Money
  import opened DineIn
  import opened DineInInvariants
  import opened DineInTheorems
  import opened DineInCharges
  import opened Splits
  import opened InvoiceLines

  /** The line totals the invoice prints for a session: those of its items that are not voided. */
  function PrintedGross(items: seq<Item>, kots: seq<Kot>, s: nat): seq<int> {
    if items == [] then []
    else
      var rest, it := PrintedGross(items[..|items| - 1], kots, s), items[|items| - 1];
      if it.status != Voided && it.kot < |kots| && kots[it.kot].session == s then rest + [it.lineTotal] else rest
  }

  lemma SumOne(xs: seq<int>, x: int)
    ensures Sum(xs + [x]) == Sum(xs) + x
  {
    assert (xs + [x])[..|xs|] == xs;
  }

  lemma {:induction false} PrintedIsLive(items: seq<Item>, kots: seq<Kot>, s: nat)
    ensures Sum(PrintedGross(items, kots, s)) == LiveTotal(items, kots, s)
  {
    if items != [] {
      var rest, it := items[..|items| - 1], items[|items| - 1];
      PrintedIsLive(rest, kots, s);
      SumOne(PrintedGross(rest, kots, s), it.lineTotal);
    }
  }

  /** The columns of the bill's invoice. */
  function PrintedColumns(st: State, b: nat): Sums
    requires b < |st.bills|
  {
    var c := st.bills[b].charges;
    Columns(Lines(PrintedGross(st.items, st.kots, st.bills[b].session), c.discountAmount, HalfRate(c.taxRate)))
  }

  function PrintedLines(st: State, b: nat): nat
    requires b < |st.bills|
  {
    |PrintedGross(st.items, st.kots, st.bills[b].session)|
  }

  lemma TaxIsNear(tax: int, base: int, rate: int)
    requires IsPercent(tax, base, rate)
    ensures Near(tax, PercentOf(base as real, rate as real), 0.5)
  {
    CastProduct(base, rate);
    var x := PercentOf(base as real, rate as real);
    assert 10000.0 * x == (base * rate) as real;
    OfTenThousand(tax, x, base * rate);
  }

  lemma OfTenThousand(n: int, x: real, product: int)
    requires -5000 <= 10000 * n - product <= 5000 && 10000.0 * x == product as real
    ensures Near(n, x, 0.5)
  {
  }

  /** The invoice of n lines: gross as charged, discount to n/2 cents, tax within the drift, rows that add up. */
  predicate MatchesBill(s: Sums, c: Charges, n: nat) {
    && s.gross == c.subtotal
    && Near(s.discount, c.discountAmount as real, n as real / 2.0)
    && BillTaxNear(s, c.subtotal - c.discountAmount, c.taxAmount, n, c.taxRate)
    && s.net == s.gross - s.discount && s.total == s.net + s.cgst + s.sgst
  }

  lemma InvoiceOf(gross: seq<int>, c: Charges)
    requires WellCharged(c) && NotNegative(c) && c.taxRate >= 0 && Sum(gross) == c.subtotal > 0
    ensures MatchesBill(Columns(Lines(gross, c.discountAmount, HalfRate(c.taxRate))), c, |gross|)
  {
    var half := HalfRate(c.taxRate);
    var lines := Lines(gross, c.discountAmount, half);
    DiscountTakesOff(c);
    TaxIsNear(c.taxAmount, c.subtotal - c.discountAmount, c.taxRate);
    TaxDrift(gross, c.discountAmount, c.taxAmount, c.taxRate);
    DiscountDrift(gross, c.discountAmount, half);
    InvoiceAddsUp(gross, c.discountAmount, half);
  }

  lemma InvoiceAddsUp(gross: seq<int>, discount: int, half: int)
    ensures var s := Columns(Lines(gross, discount, half));
            s.gross == Sum(gross) && s.net == s.gross - s.discount && s.total == s.net + s.cgst + s.sgst
  {
    var lines := Lines(gross, discount, half);
    ColumnsBalance(lines);
    ColumnsAreSums(lines);
    assert Gross(lines) == gross;
  }

  /**
   In every run with whole adjustments and without late rounds, the invoice of a bill that
   charges for something prints the bill's own subtotal, its discount and its stored tax.
   */
  lemma InvoiceMatchesTheBill(start: State, ops: seq<Request>, b: nat)
    requires Fresh(start) && NoLateOrders(start, ops) && b < |Serve(start, ops).bills|
    requires forall i :: 0 <= i < |ops| ==> WholeRequest(ops[i])
    requires Serve(start, ops).bills[b].charges.subtotal > 0 && Serve(start, ops).bills[b].charges.taxRate >= 0
    ensures var st := Serve(start, ops);
            MatchesBill(PrintedColumns(st, b), st.bills[b].charges, PrintedLines(st, b))
  {
    var st := Serve(start, ops);
    var s := st.bills[b].session;
    EveryBillIsWellCharged(start, ops, b);
    AdjustmentsAreNotNegative(start, ops, b);
    SubtotalFollowsItems(start, ops, b);
    PrintedIsLive(st.items, st.kots, s);
    InvoiceOf(PrintedGross(st.items, st.kots, s), st.bills[b].charges);
  }
}
