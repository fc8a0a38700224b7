/** Every run of postings keeps the books balanced and the trial balance at zero. */
module LedgerBalance {
  import opened Money
  import opened Ledger

  // ---------- sums ----------

  lemma {:induction false} SidesMakeTheTrialBalance(accounts: seq<Account>, entries: seq<Entry>)
    ensures TrialBalance(accounts, entries)
         == SideMovement(accounts, entries, true) - SideMovement(accounts, entries, false)
  {
    if accounts != [] {
      SidesMakeTheTrialBalance(accounts[..|accounts| - 1], entries);
    }
  }

  lemma {:induction false} NetAppend(a: seq<Line>, b: seq<Line>, code: Code)
    ensures Net(a + b, code) == Net(a, code) + Net(b, code)
  {
    if b == [] {
      assert a + b == a;
    } else {
      NetAppend(a, b[..|b| - 1], code);
      assert (a + b)[..|a + b| - 1] == a + b[..|b| - 1];
    }
  }

  lemma {:induction false} ImbalanceAppend(a: seq<Line>, b: seq<Line>)
    ensures Imbalance(a + b) == Imbalance(a) + Imbalance(b)
  {
    if b == [] {
      assert a + b == a;
    } else {
      ImbalanceAppend(a, b[..|b| - 1]);
      assert (a + b)[..|a + b| - 1] == a + b[..|b| - 1];
    }
  }

  lemma PostedOne(entries: seq<Entry>, e: Entry, code: Code)
    ensures Posted(entries + [e], code) == Posted(entries, code) + Net(e.lines, code)
  {
    assert (entries + [e])[..|entries|] == entries;
  }

  // ---------- templates ----------

  lemma TwoLines(a: Line, b: Line, code: Code)
    ensures Imbalance([a, b]) == a.debit - a.credit + b.debit - b.credit
    ensures Net([a, b], code) == Net([a], code) + Net([b], code)
    ensures Net([a], code) == if a.account == code then a.debit - a.credit else 0
  {
    assert [a, b] == [a] + [b] && [a][..0] == [];
    ImbalanceAppend([a], [b]);
    NetAppend([a], [b], code);
  }

  lemma ThreeLines(a: Line, b: Line, c: Line, code: Code)
    ensures Imbalance([a, b, c]) == a.debit - a.credit + b.debit - b.credit + c.debit - c.credit
    ensures Net([a, b, c], code) == Net([a], code) + Net([b], code) + Net([c], code)
  {
    assert [a, b, c] == [a, b] + [c];
    TwoLines(a, b, code);
    TwoLines(c, c, code);
    ImbalanceAppend([a, b], [c]);
    NetAppend([a, b], [c], code);
  }

  lemma SaleLegsImbalance(debitAccount: Code, revenue: Code, tax: real, total: real)
    ensures Imbalance(SaleLegs(debitAccount, revenue, tax, total))
         == Round(total) - Round(total - tax) - Round(tax)
  {
    var ls := SaleLegs(debitAccount, revenue, tax, total);
    ThreeLines(ls[0], ls[1], ls[2], 0);
  }

  predicate HasTax(t: Template) {
    t.PosSale? || t.OrderSale? || t.RoomRevenue? || t.SalesInvoice? || t.CreditNote? || t.ChannelSale?
  }

  /** The tax as the template's legs use it. */
  function LegTax(t: Template): real
    requires HasTax(t)
  {
    if t.ChannelSale? then Round(t.tax) as real else t.tax
  }

  function TaxGap(total: real, tax: real): int {
    Round(total) - Round(total - tax) - Round(tax)
  }

  lemma TemplateImbalance(t: Template)
    requires Legs(t).Some?
    ensures HasTax(t) && !t.CreditNote? ==> Imbalance(Legs(t).value) == TaxGap(t.total, LegTax(t))
    ensures t.CreditNote? ==> Imbalance(Legs(t).value) == -TaxGap(t.total, t.tax)
    ensures !HasTax(t) ==> Imbalance(Legs(t).value) == 0
  {
    var ls := Legs(t).value;
    if t.CreditNote? {
      ThreeLines(ls[0], ls[1], ls[2], 0);
    } else if HasTax(t) {
      assert ls == SaleLegs(ls[0].account, ls[1].account, LegTax(t), t.total);
      SaleLegsImbalance(ls[0].account, ls[1].account, LegTax(t), t.total);
    } else {
      TwoLines(ls[0], ls[1], 0);
    }
  }

  lemma WholeParts(total: real, tax: real)
    requires IsWhole(total) && IsWhole(tax)
    ensures Round(total) == Round(total - tax) + Round(tax) && Round(tax) as real == tax
  {
    RoundWhole(total.Floor);
    RoundWhole(tax.Floor);
    RoundWhole(total.Floor - tax.Floor);
  }

  /** An entry posted from a template is off by at most one cent, and never for whole cents. */
  lemma TemplateBalance(t: Template)
    requires Legs(t).Some?
    ensures -1 <= Imbalance(Legs(t).value) <= 1
    ensures WholeCents(t) ==> Imbalance(Legs(t).value) == 0
  {
    TemplateImbalance(t);
    if HasTax(t) {
      RoundSplit(t.total, LegTax(t));
      if WholeCents(t) {
        WholeParts(t.total, t.tax);
      }
    }
  }

  /** The one-cent slack is real: 2.5 cents with 1.25 cents of tax debits 3 and credits 2. */
  lemma OneCentSlackIsReached()
    ensures Imbalance(Legs(SalesInvoice(1.25, 2.5)).value) == 1
  {
    SaleLegsImbalance(RECEIVABLE, SALES, 1.25, 2.5);
  }

  // ---------- every run keeps the books balanced ----------

  predicate KnownLines(accounts: seq<Account>, lines: seq<Line>) {
    forall i :: 0 <= i < |lines| ==> HasCode(accounts, lines[i].account)
  }

  ghost predicate Balanced(book: Book) {
    && Distinct(book.accounts)
    && forall i :: 0 <= i < |book.entries| ==>
         KnownLines(book.accounts, book.entries[i].lines) && Imbalance(book.entries[i].lines) == 0
  }

  lemma KnownLinesGrow(accounts: seq<Account>, more: seq<Account>, lines: seq<Line>)
    requires accounts <= more && KnownLines(accounts, lines)
    ensures KnownLines(more, lines)
  {
    forall i | 0 <= i < |lines|
      ensures HasCode(more, lines[i].account)
    {
      KeepsCode(accounts, more, lines[i].account);
    }
  }

  lemma BalancedExtends(book: Book, accounts: seq<Account>, e: Entry)
    requires Balanced(book) && book.accounts <= accounts && Distinct(accounts)
    requires KnownLines(accounts, e.lines) && Imbalance(e.lines) == 0
    ensures Balanced(Book(accounts, book.entries + [e]))
    ensures Balanced(Book(accounts, book.entries))
  {
    forall i | 0 <= i < |book.entries|
      ensures KnownLines(accounts, book.entries[i].lines)
    {
      KnownLinesGrow(book.accounts, accounts, book.entries[i].lines);
    }
  }

  /** Every code a template uses is in the standard chart. */
  lemma TemplateCodesSeeded(accounts: seq<Account>, t: Template)
    requires Seeded(accounts) && Legs(t).Some?
    ensures KnownLines(accounts, Legs(t).value)
  {
    assert HasCode(accounts, STANDARD_CHART[0].code) && HasCode(accounts, STANDARD_CHART[1].code);
    assert HasCode(accounts, STANDARD_CHART[2].code) && HasCode(accounts, STANDARD_CHART[3].code);
    assert HasCode(accounts, STANDARD_CHART[4].code) && HasCode(accounts, STANDARD_CHART[5].code);
    assert HasCode(accounts, STANDARD_CHART[7].code) && HasCode(accounts, STANDARD_CHART[8].code);
    assert HasCode(accounts, STANDARD_CHART[9].code) && HasCode(accounts, STANDARD_CHART[10].code);
  }

  lemma {:induction false} KeptWhenKnown(accounts: seq<Account>, lines: seq<Line>, code: Code)
    requires KnownLines(accounts, lines)
    ensures Imbalance(Kept(accounts, lines)) == Imbalance(lines)
    ensures Net(Kept(accounts, lines), code) == Net(lines, code)
  {
    if lines != [] {
      var rest := lines[..|lines| - 1];
      var l := lines[|lines| - 1];
      KeptWhenKnown(accounts, rest, code);
      assert HasCode(accounts, l.account);
      if l.debit == 0 && l.credit == 0 {
        assert Kept(accounts, lines) == Kept(accounts, rest);
      } else {
        assert Kept(accounts, lines) == Kept(accounts, rest) + [l];
        ImbalanceAppend(Kept(accounts, rest), [l]);
        NetAppend(Kept(accounts, rest), [l], code);
        TwoLines(l, l, code);
      }
    }
  }

  lemma {:induction false} KeptContains(accounts: seq<Account>, lines: seq<Line>, l: Line)
    requires l in lines && !Skipped(accounts, l)
    ensures l in Kept(accounts, lines)
  {
    if l != lines[|lines| - 1] {
      KeptContains(accounts, lines[..|lines| - 1], l);
    }
  }

  /** Neither skip branch of posting loses a non-zero leg of any template, on any chart. */
  lemma NoLegIsDropped(book: Book, reference: string, t: Template, code: Code)
    requires Legs(t).Some?
    ensures var e := PostTo(book, reference, Legs(t).value).entries[|book.entries|];
            && Net(e.lines, code) == Net(Legs(t).value, code)
            && Imbalance(e.lines) == Imbalance(Legs(t).value)
            && forall l :: l in Legs(t).value && (l.debit != 0 || l.credit != 0) ==> l in e.lines
  {
    var accounts := Seed(book.accounts, |STANDARD_CHART|);
    TemplateCodesSeeded(accounts, t);
    KeptWhenKnown(accounts, Legs(t).value, code);
    forall l | l in Legs(t).value && (l.debit != 0 || l.credit != 0)
      ensures l in Kept(accounts, Legs(t).value)
    {
      KeptContains(accounts, Legs(t).value, l);
    }
  }

  lemma {:induction false} SwappedNegates(lines: seq<Line>, code: Code)
    ensures Net(Swapped(lines), code) == -Net(lines, code)
    ensures Imbalance(Swapped(lines)) == -Imbalance(lines)
  {
    if lines != [] {
      var rest := lines[..|lines| - 1];
      SwappedNegates(rest, code);
      assert Swapped(lines)[..|lines| - 1] == Swapped(rest);
    }
  }

  lemma {:induction false} LinesUnderBalanced(accounts: seq<Account>, entries: seq<Entry>, reference: string)
    requires Balanced(Book(accounts, entries))
    ensures KnownLines(accounts, LinesUnder(entries, reference))
    ensures Imbalance(LinesUnder(entries, reference)) == 0
  {
    if entries != [] {
      var rest := entries[..|entries| - 1];
      LinesUnderBalanced(accounts, rest, reference);
      ImbalanceAppend(LinesUnder(rest, reference), entries[|entries| - 1].lines);
      ImbalanceAppend(LinesUnder(rest, reference), []);
    }
  }

  /** A stored amount is within half a cent, so a line is off by at most one cent. */
  lemma {:induction false} StoredImbalance(lines: seq<RawLine>)
    ensures Abs(Imbalance(Stored(lines)) as real - RawImbalance(lines)) <= |lines| as real
    ensures (forall i :: 0 <= i < |lines| ==> WholeLine(lines[i])) ==>
              Imbalance(Stored(lines)) as real == RawImbalance(lines)
  {
    if lines != [] {
      var rest := lines[..|lines| - 1];
      var l := lines[|lines| - 1];
      StoredImbalance(rest);
      assert Stored(lines)[..|rest|] == Stored(rest);
      if forall i :: 0 <= i < |lines| ==> WholeLine(lines[i]) {
        assert forall i :: 0 <= i < |rest| ==> rest[i] == lines[i];
        assert WholeLine(l);
        RoundWhole(l.debit.Floor);
        RoundWhole(l.credit.Floor);
      }
    }
  }

  function HalfCentLines(): seq<RawLine> {
    [RawLine(CASH, 0.5, 0.0), RawLine(CASH, 0.5, 0.0), RawLine(CASH, 0.0, 1.0)]
  }

  lemma HalfCentLinesStored()
    ensures RawImbalance(HalfCentLines()) == 0.0
    ensures Imbalance(Stored(HalfCentLines())) == 1
  {
    var a, b := RawLine(CASH, 0.5, 0.0), RawLine(CASH, 0.0, 1.0);
    assert [a, a, b][..2] == [a, a] && [a, a][..1] == [a] && [a][..0] == [];
    assert RawImbalance([a]) == 0.5;
    assert RawImbalance([a, a]) == 1.0;
    var x, y := Line(CASH, 1, 0), Line(CASH, 0, 1);
    assert Stored([a]) == [x];
    assert Stored([a, a]) == [x, x];
    assert Stored([a, a, b]) == [x, x, y];
    ThreeLines(x, x, y, 0);
  }

  /** The balance check sees the request, the ledger the rounded rows: half cents slip through. */
  lemma SubCentManualEntryUnbalances(book: Book)
    requires HasCode(book.accounts, CASH)
    ensures ManualAccepted(book, HalfCentLines())
    ensures !Balanced(Step(book, Manual("", HalfCentLines())))
  {
    HalfCentLinesStored();
    var after := Step(book, Manual("", HalfCentLines()));
    assert after.entries[|book.entries|].lines == Stored(HalfCentLines());
  }

  lemma {:induction false} StoredSides(lines: seq<RawLine>)
    ensures Imbalance(Stored(lines)) == RoundedDebits(lines) - RoundedCredits(lines)
  {
    if lines != [] {
      var rest := lines[..|lines| - 1];
      StoredSides(rest);
      assert Stored(lines)[..|rest|] == Stored(rest);
    }
  }

  /** Whole cents that balance still do once rounded. */
  lemma WholeEntryIsEven(lines: seq<RawLine>)
    requires RawImbalance(lines) == 0.0 && forall i :: 0 <= i < |lines| ==> WholeLine(lines[i])
    ensures RoundedDebits(lines) == RoundedCredits(lines)
  {
    StoredImbalance(lines);
    StoredSides(lines);
  }

  /** An accepted manual entry keeps the books balanced exactly when its rounded debits equal its rounded credits. */
  lemma ManualKeepsBalance(book: Book, reference: string, lines: seq<RawLine>)
    requires Balanced(book) && ManualAccepted(book, lines)
    ensures Balanced(Step(book, Manual(reference, lines))) <==> RoundedDebits(lines) == RoundedCredits(lines)
  {
    StoredSides(lines);
    var e := Entry(reference, Stored(lines));
    var after := Step(book, Manual(reference, lines));
    assert after.entries[|book.entries|] == e;
    if RoundedDebits(lines) == RoundedCredits(lines) {
      BalancedExtends(book, book.accounts, e);
    }
  }

  lemma StepBalanced(book: Book, op: Op)
    requires Balanced(book) && EvenOp(op)
    ensures Balanced(Step(book, op))
  {
    match op
    case Post(reference, t) =>
      if Legs(t).Some? { PostBalanced(book, reference, t); }
    case PostOnce(reference, t) =>
      if Legs(t).Some? { PostBalanced(book, reference, t); }
    case Manual(reference, lines) =>
      if ManualAccepted(book, lines) {
        ManualKeepsBalance(book, reference, lines);
      }
    case Reverse(reference) =>
      LinesUnderBalanced(book.accounts, book.entries, reference);
      var lines := LinesUnder(book.entries, reference);
      SwappedNegates(lines, 0);
      BalancedExtends(book, book.accounts, Entry(ReversalOf(reference), Swapped(lines)));
    case AddAccount(a) =>
      if !HasCode(book.accounts, a.code) {
        BalancedExtends(book, book.accounts + [a], Entry("", []));
      }
  }

  lemma PostBalanced(book: Book, reference: string, t: Template)
    requires Balanced(book) && Legs(t).Some? && WholeCents(t)
    ensures Balanced(PostTo(book, reference, Legs(t).value))
  {
    var accounts := Seed(book.accounts, |STANDARD_CHART|);
    NoLegIsDropped(book, reference, t, 0);
    TemplateBalance(t);
    BalancedExtends(book, accounts, Entry(reference, Kept(accounts, Legs(t).value)));
  }

  lemma {:induction false} RunBalanced(book: Book, ops: seq<Op>)
    requires Balanced(book)
    requires forall i :: 0 <= i < |ops| ==> EvenOp(ops[i])
    ensures Balanced(Run(book, ops))
  {
    if ops != [] {
      RunBalanced(book, ops[..|ops| - 1]);
      StepBalanced(Run(book, ops[..|ops| - 1]), ops[|ops| - 1]);
    }
  }

  // ---------- the trial balance ----------

  function LineSum(accounts: seq<Account>, lines: seq<Line>): int {
    if accounts == [] then 0
    else LineSum(accounts[..|accounts| - 1], lines) + Net(lines, accounts[|accounts| - 1].code)
  }

  lemma {:induction false} TrialBalanceOne(accounts: seq<Account>, entries: seq<Entry>, e: Entry)
    ensures TrialBalance(accounts, entries + [e]) == TrialBalance(accounts, entries) + LineSum(accounts, e.lines)
  {
    if accounts != [] {
      TrialBalanceOne(accounts[..|accounts| - 1], entries, e);
      PostedOne(entries, e, accounts[|accounts| - 1].code);
    }
  }

  lemma {:induction false} LineSumOne(accounts: seq<Account>, lines: seq<Line>, l: Line)
    requires Distinct(accounts)
    ensures LineSum(accounts, lines + [l])
         == LineSum(accounts, lines) + if HasCode(accounts, l.account) then l.debit - l.credit else 0
  {
    if accounts != [] {
      var rest := accounts[..|accounts| - 1];
      var last := accounts[|accounts| - 1];
      LineSumOne(rest, lines, l);
      assert (lines + [l])[..|lines|] == lines;
      if HasCode(rest, l.account) {
        KeepsCode(rest, accounts, l.account);
      }
      assert HasCode(accounts, l.account) ==> HasCode(rest, l.account) || last.code == l.account;
    }
  }

  /** Each known line lands on exactly one row. */
  lemma {:induction false} LineSumIsImbalance(accounts: seq<Account>, lines: seq<Line>)
    requires Distinct(accounts) && KnownLines(accounts, lines)
    ensures LineSum(accounts, lines) == Imbalance(lines)
  {
    if lines == [] {
      LineSumEmpty(accounts);
    } else {
      var rest := lines[..|lines| - 1];
      LineSumIsImbalance(accounts, rest);
      LineSumOne(accounts, rest, lines[|lines| - 1]);
      assert rest + [lines[|lines| - 1]] == lines;
    }
  }

  lemma {:induction false} LineSumEmpty(accounts: seq<Account>)
    ensures LineSum(accounts, []) == 0
    ensures TrialBalance(accounts, []) == 0
  {
    if accounts != [] {
      LineSumEmpty(accounts[..|accounts| - 1]);
    }
  }

  lemma {:induction false} BalancedBookSumsToZero(accounts: seq<Account>, entries: seq<Entry>)
    requires Balanced(Book(accounts, entries))
    ensures TrialBalance(accounts, entries) == 0
  {
    if entries == [] {
      LineSumEmpty(accounts);
    } else {
      var rest := entries[..|entries| - 1];
      var e := entries[|entries| - 1];
      BalancedBookSumsToZero(accounts, rest);
      TrialBalanceOne(accounts, rest, e);
      LineSumIsImbalance(accounts, e.lines);
      assert rest + [e] == entries;
    }
  }

  /**
   After every step of every run of whole-cent postings, manual entries that stay even when
   rounded, and reversals, the trial balance sums to zero and the debit-normal accounts have
   moved exactly as much as the credit-normal ones.
   */
  lemma TrialBalanceOfEveryRun(book: Book, ops: seq<Op>, k: nat)
    requires Balanced(book) && k <= |ops|
    requires forall i :: 0 <= i < |ops| ==> EvenOp(ops[i])
    ensures var b := Run(book, ops[..k]);
            && TrialBalance(b.accounts, b.entries) == 0
            && SideMovement(b.accounts, b.entries, true) == SideMovement(b.accounts, b.entries, false)
  {
    var b := Run(book, ops[..k]);
    RunBalanced(book, ops[..k]);
    BalancedBookSumsToZero(b.accounts, b.entries);
    SidesMakeTheTrialBalance(b.accounts, b.entries);
  }
}
