/**
 The tax invoice: the bill's discount allocated over its lines, the CGST/SGST of each line,
 and the totals. Amounts are cents and rates hundredths of a percent.
 */
module InvoiceLines {
  import opened Money
  import opened Splits
  import opened DineIn

  datatype InvoiceLine = InvoiceLine(gross: int, discount: int, net: int, cgst: int, sgst: int, total: int)

  /** CGST and SGST are charged at half the rate each, rounded to two places. */
  function HalfRate(taxRate: int): int {
    Round(taxRate as real / 2.0)
  }

  function LineDiscount(discount: int, gross: int, grossSum: int): int {
    if grossSum > 0 && discount > 0 then Round(Portion(discount, gross, grossSum)) else 0
  }

  function TaxHalf(net: int, halfRate: int): int {
    Round(PercentOf(net as real, halfRate as real))
  }

  /** A line with its tax, whatever its gross and discount. */
  function Taxed(gross: int, discount: int, halfRate: int): InvoiceLine {
    var net := gross - discount;
    var t := TaxHalf(net, halfRate);
    InvoiceLine(gross, discount, net, t, t, net + t + t)
  }

  /** The invoice's lines, each with its proportion of the bill's discount. */
  function Lines(gross: seq<int>, discount: int, halfRate: int): (r: seq<InvoiceLine>)
    ensures |r| == |gross|
    ensures forall i :: 0 <= i < |r| ==> r[i] == Taxed(gross[i], LineDiscount(discount, gross[i], Sum(gross)), halfRate)
  {
    seq(|gross|, i requires 0 <= i < |gross| => Taxed(gross[i], LineDiscount(discount, gross[i], Sum(gross)), halfRate))
  }

  datatype Sums = Sums(gross: int, discount: int, net: int, cgst: int, sgst: int, total: int)

  function Plus(s: Sums, l: InvoiceLine): Sums {
    Sums(s.gross + l.gross, s.discount + l.discount, s.net + l.net, s.cgst + l.cgst, s.sgst + l.sgst, s.total + l.total)
  }

  function Columns(lines: seq<InvoiceLine>): Sums {
    if lines == [] then Sums(0, 0, 0, 0, 0, 0) else Plus(Columns(lines[..|lines| - 1]), lines[|lines| - 1])
  }

  lemma ColumnsOne(lines: seq<InvoiceLine>, l: InvoiceLine)
    ensures Columns(lines + [l]) == Plus(Columns(lines), l)
  {
    assert (lines + [l])[..|lines|] == lines;
  }

  method BuildLines(gross: seq<int>, discount: int, taxRate: int) returns (lines: seq<InvoiceLine>, sums: Sums)
    ensures lines == Lines(gross, discount, HalfRate(taxRate))
    ensures sums == Columns(lines)
  {
    var grossSum := SumShares(gross);
    var half := HalfRate(taxRate);
    ghost var all := Lines(gross, discount, half);
    lines, sums := [], Sums(0, 0, 0, 0, 0, 0);
    var i := 0;
    while i < |gross|
      invariant 0 <= i <= |gross|
      invariant lines == all[..i] && sums == Columns(lines)
    {
      var d := LineDiscount(discount, gross[i], grossSum);
      var net := gross[i] - d;
      var cgst := TaxHalf(net, half);
      var line := InvoiceLine(gross[i], d, net, cgst, cgst, net + cgst + cgst);
      assert line == all[i];
      ColumnsOne(lines, line);
      lines := lines + [line];
      sums := Plus(sums, line);
      i := i + 1;
    }
  }

  // ---------- columns ----------

  predicate Balances(l: InvoiceLine) {
    l.net == l.gross - l.discount && l.cgst == l.sgst && l.total == l.net + l.cgst + l.sgst
  }

  function Gross(lines: seq<InvoiceLine>): (r: seq<int>)
    ensures |r| == |lines| && forall i :: 0 <= i < |r| ==> r[i] == lines[i].gross
  {
    seq(|lines|, i requires 0 <= i < |lines| => lines[i].gross)
  }

  function Discounts(lines: seq<InvoiceLine>): (r: seq<int>)
    ensures |r| == |lines| && forall i :: 0 <= i < |r| ==> r[i] == lines[i].discount
  {
    seq(|lines|, i requires 0 <= i < |lines| => lines[i].discount)
  }

  /** Lines that balance make columns that balance. */
  lemma {:induction false} ColumnsBalance(lines: seq<InvoiceLine>)
    requires forall i :: 0 <= i < |lines| ==> Balances(lines[i])
    ensures var s := Columns(lines);
            s.net == s.gross - s.discount && s.cgst == s.sgst && s.total == s.net + s.cgst + s.sgst
  {
    if lines != [] {
      ColumnsBalance(lines[..|lines| - 1]);
      assert Balances(lines[|lines| - 1]);
    }
  }

  lemma {:induction false} ColumnsAreSums(lines: seq<InvoiceLine>)
    ensures Columns(lines).gross == Sum(Gross(lines)) && Columns(lines).discount == Sum(Discounts(lines))
  {
    if lines != [] {
      var rest := lines[..|lines| - 1];
      ColumnsAreSums(rest);
      assert Gross(lines)[..|rest|] == Gross(rest) && Discounts(lines)[..|rest|] == Discounts(rest);
    }
  }

  /** The allocated discounts miss the bill's discount by at most half a cent a line. */
  lemma DiscountDrift(gross: seq<int>, discount: int, halfRate: int)
    requires Sum(gross) > 0 && discount >= 0
    ensures Near(Columns(Lines(gross, discount, halfRate)).discount, discount as real, |gross| as real / 2.0)
  {
    var n := |gross|;
    var column := Discounts(Lines(gross, discount, halfRate));
    ColumnsAreSums(Lines(gross, discount, halfRate));
    if discount > 0 {
      assert gross[..n] == gross;
      assert column == Leading(discount, gross, Sum(gross), n);
      LeadingDrift(discount, gross, Sum(gross), n);
      PortionOfAll(discount, Sum(gross));
    } else {
      assert column == seq(n, i => 0);
      SumOfEqual(0, n);
    }
  }

  // ---------- tax ----------

  lemma PercentAdds(a: real, b: real, rate: real)
    ensures PercentOf(a + b, rate) == PercentOf(a, rate) + PercentOf(b, rate)
  {
    Distribute(a, b, rate);
  }

  lemma HalvesMakeTheRate(net: int, halfRate: int)
    ensures Near(2 * TaxHalf(net, halfRate), PercentOf(net as real, (2 * halfRate) as real), 1.0)
  {
    assert PercentOf(net as real, (2 * halfRate) as real) == 2.0 * PercentOf(net as real, halfRate as real);
  }

  lemma NearPlus(x: int, p: real, s: real, y: int, q: real, t: real)
    requires Near(x, p, s) && Near(y, q, t)
    ensures Near(x + y, p + q, s + t)
  {
  }

  /** Lines whose two halves are within a cent of the rate make a column within a cent a line. */
  lemma {:induction false} TaxColumn(lines: seq<InvoiceLine>, rate: real)
    requires forall i :: 0 <= i < |lines| ==> Near(2 * lines[i].cgst, PercentOf(lines[i].net as real, rate), 1.0)
    ensures Near(2 * Columns(lines).cgst, PercentOf(Columns(lines).net as real, rate), |lines| as real)
  {
    if lines != [] {
      var k := |lines| - 1;
      var before, l := Columns(lines[..k]), lines[k];
      TaxColumn(lines[..k], rate);
      assert Near(2 * l.cgst, PercentOf(l.net as real, rate), 1.0);
      PercentAdds(before.net as real, l.net as real, rate);
      NearPlus(2 * before.cgst, PercentOf(before.net as real, rate), k as real,
               2 * l.cgst, PercentOf(l.net as real, rate), 1.0);
    }
  }

  lemma PercentNear(x: real, y: real, rate: real, slack: real)
    requires Abs(x - y) <= slack && rate >= 0.0
    ensures Abs(PercentOf(x, rate) - PercentOf(y, rate)) <= PercentOf(slack, rate)
  {
    Distribute(x, -y, rate);
    Distribute(slack, y - x, rate);
    Distribute(slack, x - y, rate);
    Distribute(y, -x, rate);
    ProductSign(slack + (x - y), rate);
    ProductSign(slack + (y - x), rate);
  }

  lemma Triangle(x: int, p: real, q: real, r: real, tax: int, s: real, t: real, u: real)
    requires Near(x, p, s) && Abs(p - q) <= t && Abs(q - r) <= u && Near(tax, r, 0.5)
    ensures Abs((x - tax) as real) <= s + t + 0.5 + u
  {
  }

  /** Columns that balance, with their tax within a cent a line of their own net's. */
  predicate OwnTaxNear(s: Sums, gross: int, n: nat, rate: real) {
    && s.cgst == s.sgst && s.net == gross - s.discount
    && Near(2 * s.cgst, PercentOf(s.net as real, rate), n as real)
  }

  /** The rate of both halves: the bill's, or a hundredth of a percent above an odd one. */
  function PrintedRate(taxRate: int): int {
    taxRate + taxRate % 2
  }

  lemma HalvesOf(taxRate: int)
    requires taxRate >= 0
    ensures 2 * HalfRate(taxRate) == PrintedRate(taxRate)
  {
    var h := taxRate / 2;
    if taxRate % 2 == 0 {
      RoundWhole(h);
      assert taxRate as real / 2.0 == h as real;
    } else {
      assert taxRate as real / 2.0 == h as real + 0.5;
    }
  }

  /**
   The columns' CGST and SGST miss the bill's tax by at most n + n * rate / 200 + 1/2 cents,
   the printed rate in percent, and by a ten-thousandth of the taxable amount more when the
   bill's rate is an odd number of hundredths.
   */
  predicate BillTaxNear(s: Sums, taxable: int, tax: int, n: nat, taxRate: int) {
    Abs((s.cgst + s.sgst - tax) as real) <=
      n as real + PercentOf(n as real / 2.0, PrintedRate(taxRate) as real) + 0.5
      + Abs(taxable as real) * (taxRate % 2) as real / 10000.0
  }

  lemma RatesDiffer(taxable: real, taxRate: int)
    ensures Abs(PercentOf(taxable, PrintedRate(taxRate) as real) - PercentOf(taxable, taxRate as real))
         == Abs(taxable) * (taxRate % 2) as real / 10000.0
  {
    var odd := taxRate % 2;
    Distribute(taxRate as real, odd as real, taxable);
    assert PrintedRate(taxRate) as real == taxRate as real + odd as real;
  }

  lemma NetMissesTaxable(s: Sums, n: nat, gross: int, discount: int, rate: real)
    requires rate >= 0.0 && s.net == gross - s.discount && Near(s.discount, discount as real, n as real / 2.0)
    ensures Abs(PercentOf(s.net as real, rate) - PercentOf((gross - discount) as real, rate))
         <= PercentOf(n as real / 2.0, rate)
  {
    PercentNear(s.net as real, (gross - discount) as real, rate, n as real / 2.0);
  }

  lemma DriftsAdd(s: Sums, n: nat, taxable: int, tax: int, taxRate: int, own: real, printed: real, exact: real)
    requires s.cgst == s.sgst && Near(2 * s.cgst, own, n as real) && Near(tax, exact, 0.5)
    requires Abs(own - printed) <= PercentOf(n as real / 2.0, PrintedRate(taxRate) as real)
    requires Abs(printed - exact) <= Abs(taxable as real) * (taxRate % 2) as real / 10000.0
    ensures BillTaxNear(s, taxable, tax, n, taxRate)
  {
    Triangle(2 * s.cgst, own, printed, exact, tax, n as real,
             PercentOf(n as real / 2.0, PrintedRate(taxRate) as real),
             Abs(taxable as real) * (taxRate % 2) as real / 10000.0);
  }

  /** Columns near their own tax, with a discount near the bill's, are near the bill's tax. */
  lemma ColumnsMissTheTax(s: Sums, n: nat, gross: int, discount: int, tax: int, taxRate: int)
    requires taxRate >= 0 && OwnTaxNear(s, gross, n, PrintedRate(taxRate) as real)
    requires Near(s.discount, discount as real, n as real / 2.0)
    requires Near(tax, PercentOf((gross - discount) as real, taxRate as real), 0.5)
    ensures BillTaxNear(s, gross - discount, tax, n, taxRate)
  {
    var taxable, rate := (gross - discount) as real, PrintedRate(taxRate) as real;
    NetMissesTaxable(s, n, gross, discount, rate);
    RatesDiffer(taxable, taxRate);
    DriftsAdd(s, n, gross - discount, tax, taxRate,
              PercentOf(s.net as real, rate), PercentOf(taxable, rate), PercentOf(taxable, taxRate as real));
  }

  lemma LineTaxes(gross: seq<int>, discount: int, half: int)
    ensures OwnTaxNear(Columns(Lines(gross, discount, half)), Sum(gross), |gross|, (2 * half) as real)
  {
    var lines := Lines(gross, discount, half);
    forall i | 0 <= i < |lines|
      ensures Balances(lines[i]) && Near(2 * lines[i].cgst, PercentOf(lines[i].net as real, (2 * half) as real), 1.0)
    {
      HalvesMakeTheRate(lines[i].net, half);
    }
    TaxColumn(lines, (2 * half) as real);
    ColumnsBalance(lines);
    ColumnsAreSums(lines);
    assert Gross(lines) == gross;
  }

  /**
   For any number n of lines and any rate, the CGST and SGST printed on the lines miss the tax
   charged on the bill by no more than that.
   */
  lemma TaxDrift(gross: seq<int>, discount: int, tax: int, taxRate: int)
    requires Sum(gross) > 0 && discount >= 0 && taxRate >= 0
    requires Near(tax, PercentOf((Sum(gross) - discount) as real, taxRate as real), 0.5)
    ensures BillTaxNear(Columns(Lines(gross, discount, HalfRate(taxRate))), Sum(gross) - discount, tax, |gross|,
              taxRate)
  {
    HalvesOf(taxRate);
    ColumnsAreNear(gross, discount, HalfRate(taxRate), PrintedRate(taxRate));
    ColumnsMissTheTax(Columns(Lines(gross, discount, HalfRate(taxRate))), |gross|, Sum(gross), discount, tax, taxRate);
  }

  lemma ColumnsAreNear(gross: seq<int>, discount: int, half: int, rate: int)
    requires Sum(gross) > 0 && discount >= 0 && rate == 2 * half
    ensures OwnTaxNear(Columns(Lines(gross, discount, half)), Sum(gross), |gross|, rate as real)
    ensures Near(Columns(Lines(gross, discount, half)).discount, discount as real, |gross| as real / 2.0)
  {
    LineTaxes(gross, discount, half);
    DiscountDrift(gross, discount, half);
  }

  // ---------- the Total Value row ----------

  function TotalCgst(tax: real): int {
    Round(tax / 2.0)
  }

  function TotalSgst(tax: real): int {
    Round(tax - TotalCgst(tax) as real)
  }

  /** CGST and SGST of the Total Value row add to the tax: exactly on the bill, to the cent on a split. */
  lemma TotalRowAddsUp(tax: real)
    ensures TotalCgst(tax) + TotalSgst(tax) == Round(tax)
  {
    if tax >= 0.0 {
      RoundShift(tax - TotalCgst(tax) as real, TotalCgst(tax));
    } else {
      RoundOdd(tax / 2.0);
      RoundOdd(tax);
      RoundOdd(tax - TotalCgst(tax) as real);
      RoundShift(TotalCgst(tax) as real - tax, -TotalCgst(tax));
    }
  }

  lemma BillTaxIsExact(tax: int)
    ensures TotalCgst(tax as real) + TotalSgst(tax as real) == tax
  {
    RoundWhole(tax - TotalCgst(tax as real));
  }

  /** A customer's fraction of an amount; all of it when the bill's total is not positive. */
  function Fractioned(x: int, amount: int, total: int): real {
    if total > 0 then Portion(x, amount, total) else x as real
  }

  /** The tax printed on each customer's invoice. */
  function SplitTaxes(tax: int, amounts: seq<int>, total: int): (r: seq<int>)
    ensures |r| == |amounts|
    ensures forall i :: 0 <= i < |r| ==> r[i] == Round(Fractioned(tax, amounts[i], total))
  {
    var r := seq(|amounts|, i requires 0 <= i < |amounts| =>
      TotalCgst(Fractioned(tax, amounts[i], total)) + TotalSgst(Fractioned(tax, amounts[i], total)));
    assert forall i :: 0 <= i < |r| ==> r[i] == Round(Fractioned(tax, amounts[i], total)) by {
      forall i | 0 <= i < |r|
        ensures r[i] == Round(Fractioned(tax, amounts[i], total))
      {
        TotalRowAddsUp(Fractioned(tax, amounts[i], total));
      }
    }
    r
  }

  lemma SplitTaxesOnPositive(tax: int, amounts: seq<int>, total: int)
    requires total > 0 && Sum(amounts) == total
    ensures Near(Sum(SplitTaxes(tax, amounts, total)), tax as real, |amounts| as real / 2.0)
  {
    var n := |amounts|;
    assert amounts[..n] == amounts;
    assert SplitTaxes(tax, amounts, total) == Leading(tax, amounts, total, n);
    LeadingDrift(tax, amounts, total, n);
    PortionOfAll(tax, total);
  }

  lemma SplitTaxesOtherwise(tax: int, amounts: seq<int>, total: int)
    requires total <= 0
    ensures Sum(SplitTaxes(tax, amounts, total)) == tax * |amounts|
  {
    RoundWhole(tax);
    assert SplitTaxes(tax, amounts, total) == seq(|amounts|, i => tax);
    SumOfEqual(tax, |amounts|);
  }

  /**
   The split invoices' grand totals add to the bill exactly and their taxes to half a cent a
   customer, for any tax and any shares; only of a bill that is not positive does every
   customer's invoice print the whole tax.
   */
  lemma SplitInvoicesAddUp(tax: int, total: int, shares: seq<int>)
    requires shares != []
    ensures var amounts := Renormalized(total, shares);
            var n, taxes := |amounts|, Sum(SplitTaxes(tax, amounts, total));
            && Sum(amounts) == total
            && (total > 0 ==> Near(taxes, tax as real, n as real / 2.0))
            && (total <= 0 ==> taxes == tax * n)
  {
    SplitsSumToTotal(total, shares);
    if total > 0 {
      SplitTaxesOnPositive(tax, Renormalized(total, shares), total);
    } else {
      SplitTaxesOtherwise(tax, Renormalized(total, shares), total);
    }
  }

  // ---------- a customer's share of each line ----------

  /** A line scaled to the customer's fraction, its tax computed afresh. */
  function ScaledLine(l: InvoiceLine, amount: int, total: int, halfRate: int): InvoiceLine {
    Taxed(Round(Fractioned(l.gross, amount, total)), Round(Fractioned(l.discount, amount, total)), halfRate)
  }

  method ScaleLines(lines: seq<InvoiceLine>, amount: int, total: int, halfRate: int) returns (scaled: seq<InvoiceLine>)
    ensures |scaled| == |lines|
    ensures forall i :: 0 <= i < |lines| ==> scaled[i] == ScaledLine(lines[i], amount, total, halfRate)
  {
    scaled := lines;
    var i := 0;
    while i < |lines|
      invariant 0 <= i <= |lines| == |scaled|
      invariant forall j :: 0 <= j < i ==> scaled[j] == ScaledLine(lines[j], amount, total, halfRate)
      invariant forall j :: i <= j < |lines| ==> scaled[j] == lines[j]
    {
      var l := scaled[i];
      l := l.(gross := Round(Fractioned(l.gross, amount, total)));
      l := l.(discount := Round(Fractioned(l.discount, amount, total)));
      l := l.(net := l.gross - l.discount);
      l := l.(cgst := TaxHalf(l.net, halfRate));
      l := l.(sgst := l.cgst);
      scaled := scaled[i := l.(total := l.net + l.cgst + l.sgst)];
      i := i + 1;
    }
  }

  /** One line as it stands on each customer's invoice. */
  function OverCustomers(l: InvoiceLine, amounts: seq<int>, total: int, halfRate: int): (r: seq<InvoiceLine>)
    ensures |r| == |amounts|
    ensures forall i :: 0 <= i < |r| ==> r[i] == ScaledLine(l, amounts[i], total, halfRate)
  {
    seq(|amounts|, i requires 0 <= i < |amounts| => ScaledLine(l, amounts[i], total, halfRate))
  }

  lemma ScaledColumn(x: int, amounts: seq<int>, total: int, column: seq<int>)
    requires total > 0 && Sum(amounts) == total && |column| == |amounts|
    requires forall i :: 0 <= i < |column| ==> column[i] == Round(Fractioned(x, amounts[i], total))
    ensures Near(Sum(column), x as real, |amounts| as real / 2.0)
  {
    var n := |amounts|;
    assert amounts[..n] == amounts;
    assert column == Leading(x, amounts, total, n);
    LeadingDrift(x, amounts, total, n);
    PortionOfAll(x, total);
  }

  /** Over all customers, a line's gross and discount come back to half a cent each, its net to one. */
  lemma ScaledLinesAddUp(l: InvoiceLine, amounts: seq<int>, halfRate: int)
    requires Sum(amounts) > 0 && l.net == l.gross - l.discount
    ensures var n := |amounts|;
            var s := Columns(OverCustomers(l, amounts, Sum(amounts), halfRate));
            && Near(s.gross, l.gross as real, n as real / 2.0)
            && Near(s.discount, l.discount as real, n as real / 2.0)
            && Near(s.net, l.net as real, n as real)
  {
    var total := Sum(amounts);
    var lines := OverCustomers(l, amounts, total, halfRate);
    ColumnsAreSums(lines);
    ScaledColumn(l.gross, amounts, total, Gross(lines));
    ScaledColumn(l.discount, amounts, total, Discounts(lines));
    forall i | 0 <= i < |lines|
      ensures Balances(lines[i])
    {
    }
    ColumnsBalance(lines);
  }
}
