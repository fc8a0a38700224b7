/**
 Histories with and without a document: whatever else is posted, taking the document's own
 operations out of a run takes its own entries out of the ledger, and reversing it leaves
 every account where the run without it does, as long as no manual entry depends on it.
 */
module LedgerHistory {
  import opened Ledger
  import opened LedgerBalance
  import opened LedgerReversal

  /** The operation posts the document or reverses it. */
  predicate OfDocument(op: Op, reference: string) {
    PostsDocument(op, reference) || op == Reverse(reference)
  }

  function Erase(ops: seq<Op>, reference: string): seq<Op> {
    if ops == [] then []
    else
      var op := ops[|ops| - 1];
      Erase(ops[..|ops| - 1], reference) + if OfDocument(op, reference) then [] else [op]
  }

  predicate Standard(code: Code) {
    HasCode(STANDARD_CHART, code)
  }

  /** Chart `a` has all of `b` and besides only accounts that seeding brings. */
  ghost predicate Alike(a: seq<Account>, b: seq<Account>) {
    && (forall code :: HasCode(b, code) ==> HasCode(a, code))
    && (forall code :: HasCode(a, code) ==> HasCode(b, code) || Standard(code))
  }

  /** `b` is the book `a` without the document. */
  ghost predicate Without(a: Book, reference: string, b: Book) {
    Alike(a.accounts, b.accounts) && Others(a.entries, reference) == b.entries
  }

  /** A manual entry is accepted in both books or in neither. */
  predicate SameAnswer(a: Book, b: Book, op: Op) {
    op.Manual? ==> (ManualAccepted(a, op.lines) <==> ManualAccepted(b, op.lines))
  }

  /** No manual entry of the run is answered otherwise because of the document. */
  predicate SameAnswers(book: Book, ops: seq<Op>, reference: string) {
    ops == [] ||
    var rest := ops[..|ops| - 1];
    SameAnswers(book, rest, reference) && SameAnswer(Run(book, rest), Run(book, Erase(rest, reference)), ops[|ops| - 1])
  }

  /** Every operation is the document's own, or foreign to it. */
  predicate Apart(ops: seq<Op>, reference: string) {
    forall i :: 0 <= i < |ops| ==> OfDocument(ops[i], reference) || Foreign(ops[i], reference)
  }

  // ---------- charts ----------

  lemma {:induction false} SeedCodes(accounts: seq<Account>, n: nat, code: Code)
    requires n <= |STANDARD_CHART|
    ensures HasCode(accounts, code) ==> HasCode(Seed(accounts, n), code)
    ensures HasCode(Seed(accounts, n), code) ==> HasCode(accounts, code) || Standard(code)
  {
    if HasCode(accounts, code) {
      KeepsCode(accounts, Seed(accounts, n), code);
    }
    if n > 0 {
      SeedCodes(accounts, n - 1, code);
    }
  }

  lemma SeedsStandard(accounts: seq<Account>, code: Code)
    ensures Standard(code) ==> HasCode(Seed(accounts, |STANDARD_CHART|), code)
  {
    if i :| 0 <= i < |STANDARD_CHART| && STANDARD_CHART[i].code == code {
      assert HasCode(Seed(accounts, |STANDARD_CHART|), STANDARD_CHART[i].code);
    }
  }

  lemma SeedLeft(a: seq<Account>, b: seq<Account>)
    requires Alike(a, b)
    ensures Alike(Seed(a, |STANDARD_CHART|), b)
  {
    forall code
      ensures HasCode(a, code) ==> HasCode(Seed(a, |STANDARD_CHART|), code)
      ensures HasCode(Seed(a, |STANDARD_CHART|), code) ==> HasCode(a, code) || Standard(code)
    {
      SeedCodes(a, |STANDARD_CHART|, code);
    }
  }

  lemma SeedBoth(a: seq<Account>, b: seq<Account>)
    requires Alike(a, b)
    ensures Alike(Seed(a, |STANDARD_CHART|), Seed(b, |STANDARD_CHART|))
  {
    SeedLeft(a, b);
    forall code
      ensures HasCode(b, code) ==> HasCode(Seed(b, |STANDARD_CHART|), code)
      ensures HasCode(Seed(b, |STANDARD_CHART|), code) ==> HasCode(b, code) || Standard(code)
      ensures Standard(code) ==> HasCode(Seed(a, |STANDARD_CHART|), code)
    {
      SeedCodes(b, |STANDARD_CHART|, code);
      SeedsStandard(a, code);
    }
  }

  function Added(accounts: seq<Account>, x: Account): seq<Account> {
    if HasCode(accounts, x.code) then accounts else accounts + [x]
  }

  lemma AddedCodes(accounts: seq<Account>, x: Account, code: Code)
    ensures HasCode(Added(accounts, x), code) <==> HasCode(accounts, code) || code == x.code
  {
    if HasCode(accounts, code) {
      KeepsCode(accounts, Added(accounts, x), code);
    }
    if !HasCode(accounts, x.code) {
      assert Added(accounts, x)[|accounts|] == x;
    }
  }

  lemma AddBoth(a: seq<Account>, b: seq<Account>, x: Account)
    requires Alike(a, b)
    ensures Alike(Added(a, x), Added(b, x))
  {
    forall code
      ensures HasCode(Added(a, x), code) <==> HasCode(a, code) || code == x.code
      ensures HasCode(Added(b, x), code) <==> HasCode(b, code) || code == x.code
    {
      AddedCodes(a, x, code);
      AddedCodes(b, x, code);
    }
  }

  /** Of lines known to both charts, posting keeps the same. */
  lemma {:induction false} KeptSame(a: seq<Account>, b: seq<Account>, lines: seq<Line>)
    requires KnownLines(a, lines) && KnownLines(b, lines)
    ensures Kept(a, lines) == Kept(b, lines)
  {
    if lines != [] {
      KeptSame(a, b, lines[..|lines| - 1]);
      assert HasCode(a, lines[|lines| - 1].account) && HasCode(b, lines[|lines| - 1].account);
    }
  }

  // ---------- one step ----------

  lemma ForeignPost(a: Book, b: Book, r: string, t: Template, reference: string)
    requires r != reference && r != ReversalOf(reference) && Without(a, reference, b) && Legs(t).Some?
    ensures Without(PostTo(a, r, Legs(t).value), reference, PostTo(b, r, Legs(t).value))
  {
    var x, y := Seed(a.accounts, |STANDARD_CHART|), Seed(b.accounts, |STANDARD_CHART|);
    SeedBoth(a.accounts, b.accounts);
    TemplateCodesSeeded(x, t);
    TemplateCodesSeeded(y, t);
    KeptSame(x, y, Legs(t).value);
    ForeignEntry(a.entries, Entry(r, Kept(x, Legs(t).value)), reference);
  }

  lemma ForeignReverse(a: Book, b: Book, r: string, reference: string)
    requires Foreign(Reverse(r), reference) && Without(a, reference, b)
    ensures Without(ReverseIn(a, r), reference, ReverseIn(b, r))
  {
    OthersLinesUnder(a.entries, reference, r);
    ForeignEntry(a.entries, Entry(ReversalOf(r), Swapped(LinesUnder(a.entries, r))), reference);
  }

  /** A manual entry keeps the two books in step exactly when both answer alike. */
  lemma ForeignManual(a: Book, b: Book, op: Op, reference: string)
    requires op.Manual? && Foreign(op, reference) && Without(a, reference, b)
    ensures Others(Step(a, op).entries, reference) == Step(b, op).entries <==> SameAnswer(a, b, op)
    ensures SameAnswer(a, b, op) ==> Without(Step(a, op), reference, Step(b, op))
  {
    var e := Entry(op.reference, Stored(op.lines));
    ForeignEntry(a.entries, e, reference);
    assert |Others(a.entries, reference) + [e]| == |b.entries| + 1;
    assert |b.entries + [e]| == |b.entries| + 1;
  }

  /** A foreign step does the same to the book with and without the document. */
  lemma ForeignStep(a: Book, b: Book, op: Op, reference: string)
    requires Foreign(op, reference) && SameAnswer(a, b, op) && Without(a, reference, b)
    ensures Without(Step(a, op), reference, Step(b, op))
  {
    match op
    case Post(r, t) =>
      if Legs(t).Some? { ForeignPost(a, b, r, t, reference); }
    case PostOnce(r, t) =>
      OthersLinesUnder(a.entries, reference, r);
      if Legs(t).Some? { ForeignPost(a, b, r, t, reference); }
    case Manual(_, _) => ForeignManual(a, b, op, reference);
    case Reverse(r) => ForeignReverse(a, b, r, reference);
    case AddAccount(x) => AddBoth(a.accounts, b.accounts, x);
  }

  lemma OwnStep(a: Book, b: Book, op: Op, reference: string)
    requires reference != "" && OfDocument(op, reference) && Without(a, reference, b)
    ensures Without(Step(a, op), reference, b)
  {
    var after := Step(a, op);
    SeedLeft(a.accounts, b.accounts);
    if after.entries != a.entries {
      var e := after.entries[|a.entries|];
      assert after.entries == a.entries + [e] && e.reference == Writes(op);
      OthersOne(a.entries, e, reference);
    }
  }

  // ---------- runs ----------

  lemma EraseOne(ops: seq<Op>, op: Op, reference: string)
    ensures Erase(ops + [op], reference) == Erase(ops, reference) + if OfDocument(op, reference) then [] else [op]
  {
    assert (ops + [op])[..|ops|] == ops;
  }

  lemma SameBook(book: Book, reference: string)
    requires Others(book.entries, reference) == book.entries
    ensures Without(book, reference, book)
  {
  }

  /**
   A run with a document's operations is, entry for entry, the run without them and the
   document's own entries, though the document may be what seeds the chart.
   */
  lemma {:induction false} RunWithoutDocument(book: Book, ops: seq<Op>, reference: string)
    requires reference != "" && Others(book.entries, reference) == book.entries
    requires Apart(ops, reference) && SameAnswers(book, ops, reference)
    ensures Without(Run(book, ops), reference, Run(book, Erase(ops, reference)))
  {
    if ops == [] {
      SameBook(book, reference);
    } else {
      var rest, op := ops[..|ops| - 1], ops[|ops| - 1];
      ApartLast(ops, reference);
      RunWithoutDocument(book, rest, reference);
      WithoutOne(book, rest, op, reference);
    }
  }

  lemma WithoutOne(book: Book, rest: seq<Op>, op: Op, reference: string)
    requires reference != "" && (OfDocument(op, reference) || Foreign(op, reference))
    requires var a, b := Run(book, rest), Run(book, Erase(rest, reference));
             Without(a, reference, b) && (OfDocument(op, reference) || SameAnswer(a, b, op))
    ensures Without(Run(book, rest + [op]), reference, Run(book, Erase(rest + [op], reference)))
  {
    var a, b := Run(book, rest), Run(book, Erase(rest, reference));
    RunOne(book, rest, op);
    EraseOne(rest, op, reference);
    if OfDocument(op, reference) {
      OwnStep(a, b, op, reference);
      assert Erase(rest + [op], reference) == Erase(rest, reference);
    } else {
      ForeignStep(a, b, op, reference);
      RunOne(book, Erase(rest, reference), op);
    }
  }

  /** The run's entries, beside the document's, are those of the run without it. */
  predicate Erases(book: Book, ops: seq<Op>, reference: string) {
    Others(Run(book, ops).entries, reference) == Run(book, Erase(ops, reference)).entries
  }

  /** At every moment of the run, the ledger without the document's entries is that of the run without it. */
  predicate ErasesThroughout(book: Book, ops: seq<Op>, reference: string) {
    Erases(book, ops, reference) && (ops == [] || ErasesThroughout(book, ops[..|ops| - 1], reference))
  }

  /** A document can be taken out of a run exactly when no manual entry is answered otherwise because of it. */
  lemma {:induction false} ErasureIsExact(book: Book, ops: seq<Op>, reference: string)
    requires reference != "" && Others(book.entries, reference) == book.entries && Apart(ops, reference)
    ensures ErasesThroughout(book, ops, reference) <==> SameAnswers(book, ops, reference)
  {
    if ops == [] {
      SameBook(book, reference);
    } else {
      ApartLast(ops, reference);
      ErasureIsExact(book, ops[..|ops| - 1], reference);
      if SameAnswers(book, ops[..|ops| - 1], reference) {
        ErasesLast(book, ops[..|ops| - 1], ops[|ops| - 1], ops, reference);
      }
    }
  }

  lemma ErasesLast(book: Book, rest: seq<Op>, op: Op, ops: seq<Op>, reference: string)
    requires reference != "" && Others(book.entries, reference) == book.entries && Apart(ops, reference)
    requires ops != [] && rest == ops[..|ops| - 1] && op == ops[|ops| - 1] && SameAnswers(book, rest, reference)
    ensures Erases(book, ops, reference) <==> SameAnswer(Run(book, rest), Run(book, Erase(rest, reference)), op)
  {
    ApartLast(ops, reference);
    RunWithoutDocument(book, rest, reference);
    ErasesOne(book, rest, op, ops, reference);
  }

  lemma ApartLast(ops: seq<Op>, reference: string)
    requires ops != [] && Apart(ops, reference)
    ensures Apart(ops[..|ops| - 1], reference) && ops == ops[..|ops| - 1] + [ops[|ops| - 1]]
    ensures OfDocument(ops[|ops| - 1], reference) || Foreign(ops[|ops| - 1], reference)
  {
  }

  lemma ErasesOne(book: Book, rest: seq<Op>, op: Op, ops: seq<Op>, reference: string)
    requires reference != "" && (OfDocument(op, reference) || Foreign(op, reference)) && ops == rest + [op]
    requires Without(Run(book, rest), reference, Run(book, Erase(rest, reference)))
    ensures Erases(book, ops, reference) <==> SameAnswer(Run(book, rest), Run(book, Erase(rest, reference)), op)
  {
    if op.Manual? {
      RunOne(book, rest, op);
      EraseOne(rest, op, reference);
      RunOne(book, Erase(rest, reference), op);
      ForeignManual(Run(book, rest), Run(book, Erase(rest, reference)), op, reference);
    } else {
      WithoutOne(book, rest, op, reference);
    }
  }

  // ---------- reversal ----------

  lemma {:induction false} RunAppend(book: Book, a: seq<Op>, b: seq<Op>)
    ensures Run(book, a + b) == Run(Run(book, a), b)
  {
    if b == [] {
      assert a + b == a;
    } else {
      RunAppend(book, a, b[..|b| - 1]);
      AppendLast(a, b);
      RunAppendOne(book, a + b[..|b| - 1], a + b, Run(book, a), b);
    }
  }

  lemma AppendLast<T>(a: seq<T>, b: seq<T>)
    requires b != []
    ensures a + b == a + b[..|b| - 1] + [b[|b| - 1]]
  {
  }

  lemma RunAppendOne(book: Book, most: seq<Op>, ops: seq<Op>, middle: Book, b: seq<Op>)
    requires b != [] && Run(book, most) == Run(middle, b[..|b| - 1]) && ops == most + [b[|b| - 1]]
    ensures Run(book, ops) == Run(middle, b)
  {
    assert ops[..|ops| - 1] == most;
  }

  lemma RunOne(book: Book, ops: seq<Op>, op: Op)
    ensures Run(book, ops + [op]) == Step(Run(book, ops), op)
  {
    assert (ops + [op])[..|ops|] == ops;
  }

  /** After a foreign run, erasing appends it unchanged. */
  lemma {:induction false} EraseForeign(before: seq<Op>, after: seq<Op>, reference: string)
    requires forall i :: 0 <= i < |after| ==> Foreign(after[i], reference)
    ensures Erase(before + after, reference) == Erase(before, reference) + after
  {
    if after == [] {
      assert before + after == before;
    } else {
      var rest, op := after[..|after| - 1], after[|after| - 1];
      EraseForeign(before, rest, reference);
      AppendLast(before, after);
      EraseOne(before + rest, op, reference);
      AppendLast(Erase(before, reference), after);
    }
  }

  lemma {:induction false} NotReversedYet(book: Book, ops: seq<Op>, reference: string)
    requires reference != "" && LinesUnder(book.entries, ReversalOf(reference)) == []
    requires forall i :: 0 <= i < |ops| ==> PostsDocument(ops[i], reference) || Foreign(ops[i], reference)
    ensures LinesUnder(Run(book, ops).entries, ReversalOf(reference)) == []
  {
    if ops != [] {
      var rest, op := ops[..|ops| - 1], ops[|ops| - 1];
      NotReversedYet(book, rest, reference);
      if PostsDocument(op, reference) {
        PostingDoesNotReverse(Run(book, rest), op, reference);
      } else {
        ForeignKeepsLines(Run(book, rest), op, reference);
      }
    }
  }

  lemma PostingDoesNotReverse(a: Book, op: Op, reference: string)
    requires reference != "" && PostsDocument(op, reference)
    ensures LinesUnder(Step(a, op).entries, ReversalOf(reference)) == LinesUnder(a.entries, ReversalOf(reference))
  {
    if Legs(op.template).Some? {
      PostAdds(a, reference, op.template, 0);
    }
  }

  lemma {:induction false} EffectStays(a: Book, ops: seq<Op>, reference: string, code: Code)
    requires forall i :: 0 <= i < |ops| ==> Foreign(ops[i], reference)
    ensures Effect(Run(a, ops).entries, reference, code) == Effect(a.entries, reference, code)
  {
    if ops != [] {
      var rest, op := ops[..|ops| - 1], ops[|ops| - 1];
      EffectStays(a, rest, reference, code);
      ForeignKeepsLines(Run(a, rest), op, reference);
    }
  }

  /** A document reversed once, whatever came before and after, has no effect. */
  lemma ReversedHasNoEffect(book: Book, before: seq<Op>, after: seq<Op>, reference: string, code: Code)
    requires reference != "" && LinesUnder(book.entries, ReversalOf(reference)) == []
    requires forall i :: 0 <= i < |before| ==> PostsDocument(before[i], reference) || Foreign(before[i], reference)
    requires forall i :: 0 <= i < |after| ==> Foreign(after[i], reference)
    ensures Effect(Run(book, before + [Reverse(reference)] + after).entries, reference, code) == 0
  {
    var middle := Run(book, before);
    NotReversedYet(book, before, reference);
    ReversedRun(book, before, after, reference);
    ReversalCancels(middle, reference, code);
    EffectStays(ReverseIn(middle, reference), after, reference, code);
  }

  lemma ReversedRun(book: Book, before: seq<Op>, after: seq<Op>, reference: string)
    ensures Run(book, before + [Reverse(reference)] + after) == Run(ReverseIn(Run(book, before), reference), after)
  {
    RunAppend(book, before + [Reverse(reference)], after);
    RunOne(book, before, Reverse(reference));
  }

  lemma ErasedRun(before: seq<Op>, after: seq<Op>, reference: string)
    requires forall i :: 0 <= i < |after| ==> Foreign(after[i], reference)
    ensures Erase(before + [Reverse(reference)] + after, reference) == Erase(before, reference) + after
  {
    EraseForeign(before + [Reverse(reference)], after, reference);
    EraseOne(before, Reverse(reference), reference);
    assert Erase(before + [Reverse(reference)], reference) == Erase(before, reference);
  }

  /**
   Reversing a document restores history: whatever else is posted before, between and
   after under other references, every account ends where it would be in the run that
   never posted the document. The chart may be empty at first, as long as no manual entry
   is answered otherwise because of the document.
   */
  lemma ReversalRestoresEveryAccount(book: Book, before: seq<Op>, after: seq<Op>, reference: string, code: Code)
    requires reference != "" && Others(book.entries, reference) == book.entries
    requires LinesUnder(book.entries, ReversalOf(reference)) == []
    requires forall i :: 0 <= i < |before| ==> PostsDocument(before[i], reference) || Foreign(before[i], reference)
    requires forall i :: 0 <= i < |after| ==> Foreign(after[i], reference)
    requires SameAnswers(book, before + [Reverse(reference)] + after, reference)
    ensures Posted(Run(book, before + [Reverse(reference)] + after).entries, code)
         == Posted(Run(book, Erase(before, reference) + after).entries, code)
  {
    ApartRun(before, after, reference);
    ReversedHasNoEffect(book, before, after, reference, code);
    ErasedRun(before, after, reference);
    RestoredBy(book, before + [Reverse(reference)] + after, reference, code);
  }

  lemma ApartRun(before: seq<Op>, after: seq<Op>, reference: string)
    requires forall i :: 0 <= i < |before| ==> PostsDocument(before[i], reference) || Foreign(before[i], reference)
    requires forall i :: 0 <= i < |after| ==> Foreign(after[i], reference)
    ensures Apart(before + [Reverse(reference)] + after, reference)
  {
  }

  lemma RestoredBy(book: Book, ops: seq<Op>, reference: string, code: Code)
    requires reference != "" && Others(book.entries, reference) == book.entries
    requires Apart(ops, reference) && SameAnswers(book, ops, reference)
    requires Effect(Run(book, ops).entries, reference, code) == 0
    ensures Posted(Run(book, ops).entries, code) == Posted(Run(book, Erase(ops, reference)).entries, code)
  {
    RunWithoutDocument(book, ops, reference);
    PostedSplits(Run(book, ops).entries, reference, code);
  }

  // ---------- entries that cannot depend on a document ----------

  /** The code is in the chart from the start, or seeding never brings it. */
  predicate Fixed(start: seq<Account>, code: Code) {
    HasCode(start, code) || !Standard(code)
  }

  /** A manual entry uses no standard account that only a posting would bring into the chart. */
  predicate Steady(op: Op, start: seq<Account>) {
    op.Manual? ==> forall i :: 0 <= i < |op.lines| ==> Fixed(start, op.lines[i].account)
  }

  lemma {:induction false} RunKeepsCode(book: Book, ops: seq<Op>, code: Code)
    requires HasCode(book.accounts, code)
    ensures HasCode(Run(book, ops).accounts, code)
  {
    if ops != [] {
      var rest := ops[..|ops| - 1];
      RunKeepsCode(book, rest, code);
      KeepsCode(Run(book, rest).accounts, Step(Run(book, rest), ops[|ops| - 1]).accounts, code);
    }
  }

  lemma RunKeepsCodes(book: Book, ops: seq<Op>)
    ensures forall code :: HasCode(book.accounts, code) ==> HasCode(Run(book, ops).accounts, code)
  {
    forall code | HasCode(book.accounts, code)
      ensures HasCode(Run(book, ops).accounts, code)
    {
      RunKeepsCode(book, ops, code);
    }
  }

  lemma SteadyAnswer(a: Book, b: Book, op: Op, start: seq<Account>)
    requires Steady(op, start) && Alike(a.accounts, b.accounts)
    requires forall code :: HasCode(start, code) ==> HasCode(b.accounts, code)
    ensures SameAnswer(a, b, op)
  {
    if op.Manual? {
      forall i | 0 <= i < |op.lines|
        ensures HasCode(a.accounts, op.lines[i].account) <==> HasCode(b.accounts, op.lines[i].account)
      {
        assert Fixed(start, op.lines[i].account);
      }
    }
  }

  /** Steady entries are answered alike, whatever the run. */
  lemma {:induction false} SteadyAnswers(book: Book, ops: seq<Op>, reference: string)
    requires reference != "" && Others(book.entries, reference) == book.entries && Apart(ops, reference)
    requires forall i :: 0 <= i < |ops| ==> Steady(ops[i], book.accounts)
    ensures SameAnswers(book, ops, reference)
  {
    if ops != [] {
      var n := |ops| - 1;
      var rest, op := ops[..n], ops[n];
      SteadyAnswers(book, rest, reference);
      RunWithoutDocument(book, rest, reference);
      RunKeepsCodes(book, Erase(rest, reference));
      SteadyAnswer(Run(book, rest), Run(book, Erase(rest, reference)), op, book.accounts);
    }
  }

  /** On a seeded chart every operation is steady. */
  lemma SeededIsSteady(start: seq<Account>, op: Op)
    requires Seeded(start)
    ensures Steady(op, start)
  {
    if op.Manual? {
      forall i | 0 <= i < |op.lines|
        ensures Fixed(start, op.lines[i].account)
      {
        var code := op.lines[i].account;
        if k :| 0 <= k < |STANDARD_CHART| && STANDARD_CHART[k].code == code {
          assert HasCode(start, STANDARD_CHART[k].code);
        }
      }
    }
  }

  lemma SeededStep(a: Book, op: Op)
    requires Seeded(a.accounts)
    ensures Step(a, op).accounts == (if op.AddAccount? then Added(a.accounts, op.account) else a.accounts)
    ensures Seeded(Step(a, op).accounts)
  {
    forall i | 0 <= i < |STANDARD_CHART|
      ensures HasCode(Step(a, op).accounts, STANDARD_CHART[i].code)
    {
      KeepsCode(a.accounts, Step(a, op).accounts, STANDARD_CHART[i].code);
    }
  }

  /** From a seeded chart, the run and the run without the document end with the same chart. */
  lemma {:induction false} SeededRun(book: Book, ops: seq<Op>, reference: string)
    requires Seeded(book.accounts)
    ensures Run(book, ops).accounts == Run(book, Erase(ops, reference)).accounts && Seeded(Run(book, ops).accounts)
  {
    if ops != [] {
      var rest, op := ops[..|ops| - 1], ops[|ops| - 1];
      SeededRun(book, rest, reference);
      SeededStep(Run(book, rest), op);
      if OfDocument(op, reference) {
        assert Erase(ops, reference) == Erase(rest, reference);
      } else {
        SeededStep(Run(book, Erase(rest, reference)), op);
        RunOne(book, Erase(rest, reference), op);
      }
    }
  }

  // ---------- one entry beside a document ----------

  lemma RunTwo(book: Book, a: Op, b: Op)
    ensures Run(book, [a, b]) == Step(Step(book, a), b)
  {
    RunOne(book, [], a);
    RunOne(book, [a], b);
    assert [] + [a] == [a] && [a] + [b] == [a, b];
  }

  lemma EraseTwo(a: Op, b: Op, reference: string)
    requires OfDocument(a, reference) && !OfDocument(b, reference)
    ensures Erase([a, b], reference) == [b]
  {
    assert [a, b][..1] == [a] && [a][..0] == [];
    assert Erase([a], reference) == [];
  }

  /** A steady entry that the seeded chart accepts needs no seeding, and the other way round. */
  lemma SteadyIsKnown(accounts: seq<Account>, lines: seq<RawLine>, entry: string)
    requires forall i :: 0 <= i < |lines| ==> HasCode(Seed(accounts, |STANDARD_CHART|), lines[i].account)
    ensures Steady(Manual(entry, lines), accounts) <==>
              forall i :: 0 <= i < |lines| ==> HasCode(accounts, lines[i].account)
  {
    forall i | 0 <= i < |lines|
      ensures Fixed(accounts, lines[i].account) <==> HasCode(accounts, lines[i].account)
    {
      SeedCodes(accounts, |STANDARD_CHART|, lines[i].account);
    }
  }

  /** What the book holds after the document, the entry and the document's reversal. */
  lemma EntryRemains(book: Book, document: string, t: Template, entry: string, lines: seq<RawLine>, code: Code)
    requires document != "" && Others(book.entries, document) == book.entries
    requires LinesUnder(book.entries, ReversalOf(document)) == []
    requires entry != document && entry != ReversalOf(document) && Legs(t).Some?
    ensures var seeded, manual := Step(book, Post(document, t)), Manual(entry, lines);
            var carried := if ManualAccepted(seeded, lines) then Net(Stored(lines), code) else 0;
            Posted(Run(book, [Post(document, t), manual] + [Reverse(document)]).entries, code) ==
                Posted(book.entries, code) + carried
  {
    var manual := Manual(entry, lines);
    RunThree(book, Post(document, t), manual, Reverse(document));
    OnlyEntryRemains(book, document, t, manual, code);
    var seeded := Step(book, Post(document, t));
    PostedRest(book.entries, ReverseIn(Step(seeded, manual), document).entries, document,
               Entry(entry, Stored(lines)), ManualAccepted(seeded, lines), code);
  }

  /** Entries that are, beside an ineffective document, those of before and perhaps one more. */
  lemma PostedRest(before: seq<Entry>, after: seq<Entry>, document: string, e: Entry, more: bool, code: Code)
    requires document != "" && Effect(after, document, code) == 0
    requires Others(after, document) == before + if more then [e] else []
    ensures Posted(after, code) == Posted(before, code) + if more then Net(e.lines, code) else 0
  {
    PostedSplits(after, document, code);
    PostedOne(before, e, code);
    assert before + [] == before;
  }

  lemma RunThree(book: Book, a: Op, b: Op, c: Op)
    ensures Run(book, [a, b] + [c]) == Step(Step(Step(book, a), b), c)
  {
    RunTwo(book, a, b);
    RunOne(book, [a, b], c);
  }

  lemma OnlyEntryRemains(book: Book, document: string, t: Template, manual: Op, code: Code)
    requires document != "" && Others(book.entries, document) == book.entries
    requires LinesUnder(book.entries, ReversalOf(document)) == []
    requires manual.Manual? && Foreign(manual, document) && Legs(t).Some?
    ensures var seeded := Step(book, Post(document, t));
            var left := if ManualAccepted(seeded,
                manual.lines) then [Entry(manual.reference, Stored(manual.lines))] else [];
            var after := ReverseIn(Step(seeded, manual), document);
            Others(after.entries, document) == book.entries + left && Effect(after.entries, document, code) == 0
  {
    var seeded := Step(book, Post(document, t));
    OthersAfterPost(book, document, t);
    ForeignKeepsLines(seeded, manual, document);
    OthersAfterManual(seeded, manual, document);
    ReversalCancels(Step(seeded, manual), document, code);
  }

  lemma OthersAfterPost(book: Book, document: string, t: Template)
    requires document != "" && Legs(t).Some?
    ensures Others(Step(book, Post(document, t)).entries, document) == Others(book.entries, document)
    ensures LinesUnder(Step(book, Post(document, t)).entries, ReversalOf(document)) ==
              LinesUnder(book.entries, ReversalOf(document))
  {
    var seeded := Step(book, Post(document, t));
    var e := seeded.entries[|book.entries|];
    assert seeded.entries == book.entries + [e];
    OthersOne(book.entries, e, document);
    PostingDoesNotReverse(book, Post(document, t), document);
  }

  lemma OthersAfterManual(book: Book, manual: Op, document: string)
    requires manual.Manual? && Foreign(manual, document)
    ensures Others(Step(book, manual).entries, document) == Others(book.entries, document)
              + if ManualAccepted(book, manual.lines) then [Entry(manual.reference, Stored(manual.lines))] else []
  {
    ForeignEntry(book.entries, Entry(manual.reference, Stored(manual.lines)), document);
  }

  /**
   A document, a manual entry and the document's reversal, on any book and chart: an account
   ends where it would without the document exactly when the entry is refused even after the
   document, or uses no account that the document's posting seeds, or moves nothing on it.
   */
  lemma OneEntryIsExact(book: Book, document: string, t: Template, entry: string, lines: seq<RawLine>, code: Code)
    requires document != "" && Others(book.entries, document) == book.entries
    requires LinesUnder(book.entries, ReversalOf(document)) == []
    requires entry != document && entry != ReversalOf(document) && Legs(t).Some?
    ensures var before := [Post(document, t), Manual(entry, lines)];
            Posted(Run(book, before + [Reverse(document)]).entries, code) ==
                Posted(Run(book, Erase(before, document)).entries, code)
            <==> !ManualAccepted(Step(book, Post(document, t)), lines)
                 || Steady(Manual(entry, lines), book.accounts) || Net(Stored(lines), code) == 0
  {
    EntryRemains(book, document, t, entry, lines, code);
    EntryAlone(book, document, t, entry, lines, code);
    AnswersCompared(book, document, t, entry, lines);
  }

  /** What the book holds after the entry alone. */
  lemma EntryAlone(book: Book, document: string, t: Template, entry: string, lines: seq<RawLine>, code: Code)
    requires document != "" && entry != document && entry != ReversalOf(document)
    ensures var carried := if ManualAccepted(book, lines) then Net(Stored(lines), code) else 0;
            Posted(Run(book, Erase([Post(document, t), Manual(entry, lines)], document)).entries, code)
            == Posted(book.entries, code) + carried
  {
    var manual := Manual(entry, lines);
    EraseTwo(Post(document, t), manual, document);
    RunOne(book, [], manual);
    assert [] + [manual] == [manual];
    PostedOne(book.entries, Entry(entry, Stored(lines)), code);
  }

  /** With the document before it the entry is accepted whenever it is without, and otherwise exactly if unsteady. */
  lemma AnswersCompared(book: Book, document: string, t: Template, entry: string, lines: seq<RawLine>)
    requires Legs(t).Some?
    ensures ManualAccepted(book, lines) <==>
            ManualAccepted(Step(book, Post(document, t)), lines) && Steady(Manual(entry, lines), book.accounts)
  {
    if ManualAccepted(Step(book, Post(document, t)), lines) {
      SteadyIsKnown(book.accounts, lines, entry);
    } else if ManualAccepted(book, lines) {
      KnownStaysKnown(book, document, t, lines);
    }
  }

  lemma KnownStaysKnown(book: Book, document: string, t: Template, lines: seq<RawLine>)
    requires ManualAccepted(book, lines)
    ensures ManualAccepted(Step(book, Post(document, t)), lines)
  {
    forall i | 0 <= i < |lines|
      ensures HasCode(Step(book, Post(document, t)).accounts, lines[i].account)
    {
      KeepsCode(book.accounts, Step(book, Post(document, t)).accounts, lines[i].account);
    }
  }

  function OneCent(): seq<RawLine> {
    [RawLine(CASH, 1.0, 0.0), RawLine(BANK, 0.0, 1.0)]
  }

  lemma OneCentStored()
    ensures RawImbalance(OneCent()) == 0.0
    ensures Stored(OneCent()) == [Line(CASH, 1, 0), Line(BANK, 0, 1)] && Net(Stored(OneCent()), CASH) == 1
  {
    var a, b := RawLine(CASH, 1.0, 0.0), RawLine(BANK, 0.0, 1.0);
    assert OneCent()[..1] == [a] && [a][..0] == [];
    assert RawImbalance([a]) == 1.0;
    assert Stored([a]) == [Line(CASH, 1, 0)];
    TwoLines(Line(CASH, 1, 0), Line(BANK, 0, 1), CASH);
    TwoLines(Line(BANK, 0, 1), Line(CASH, 1, 0), CASH);
  }

  /** For a new tenant, a cent between cash and bank is carried in by whatever document comes first. */
  lemma FirstDocumentCarriesTheEntry(document: string, entry: string, t: Template)
    requires document != "" && entry != document && entry != ReversalOf(document) && Legs(t).Some?
    ensures var empty, before := Book([], []), [Post(document, t), Manual(entry, OneCent())];
            Posted(Run(empty, before + [Reverse(document)]).entries,
                CASH) != Posted(Run(empty, Erase(before, document)).entries, CASH)
  {
    var empty := Book([], []);
    var accounts := Step(empty, Post(document, t)).accounts;
    OneCentStored();
    assert HasCode(accounts, STANDARD_CHART[0].code) && HasCode(accounts, STANDARD_CHART[1].code);
    assert ManualAccepted(Step(empty, Post(document, t)), OneCent());
    assert STANDARD_CHART[0].code == CASH && Standard(CASH) && !HasCode([], CASH);
    assert !Fixed([], OneCent()[0].account);
    OneEntryIsExact(empty, document, t, entry, OneCent(), CASH);
  }
}
