/** Reversing a document by its reference takes it out of every account, whatever else was posted. */
module LedgerReversal {
  import opened Ledger
  import opened LedgerBalance

  /** The entries that carry neither `reference` nor its reversal. */
  function Others(entries: seq<Entry>, reference: string): seq<Entry> {
    if entries == [] then []
    else
      var e := entries[|entries| - 1];
      Others(entries[..|entries| - 1], reference)
      + if e.reference == reference || e.reference == ReversalOf(reference) then [] else [e]
  }

  /** What a document moves on an account, its own entries and its reversal together. */
  function Effect(entries: seq<Entry>, reference: string, code: Code): int {
    Net(LinesUnder(entries, reference), code) + Net(LinesUnder(entries, ReversalOf(reference)), code)
  }

  lemma LinesUnderOne(entries: seq<Entry>, e: Entry, reference: string)
    ensures LinesUnder(entries + [e], reference)
         == LinesUnder(entries, reference) + if Under(e, reference) then e.lines else []
  {
    assert (entries + [e])[..|entries|] == entries;
  }

  lemma OthersOne(entries: seq<Entry>, e: Entry, reference: string)
    ensures Others(entries + [e], reference)
         == Others(entries, reference)
            + if e.reference == reference || e.reference == ReversalOf(reference) then [] else [e]
  {
    assert (entries + [e])[..|entries|] == entries;
  }

  lemma EffectOne(entries: seq<Entry>, e: Entry, reference: string, code: Code)
    requires reference != ""
    ensures Effect(entries + [e], reference, code)
         == Effect(entries, reference, code)
            + if e.reference == reference || e.reference == ReversalOf(reference) then Net(e.lines, code) else 0
  {
    LinesUnderOne(entries, e, reference);
    LinesUnderOne(entries, e, ReversalOf(reference));
    NetAppend(LinesUnder(entries, reference), e.lines, code);
    NetAppend(LinesUnder(entries, ReversalOf(reference)), e.lines, code);
    NetAppend(LinesUnder(entries, reference), [], code);
    NetAppend(LinesUnder(entries, ReversalOf(reference)), [], code);
    assert |ReversalOf(reference)| != |reference|;
  }

  lemma {:induction false} PostedSplits(entries: seq<Entry>, reference: string, code: Code)
    requires reference != ""
    ensures Posted(entries, code) == Posted(Others(entries, reference), code) + Effect(entries, reference, code)
  {
    if entries != [] {
      var rest := entries[..|entries| - 1];
      var e := entries[|entries| - 1];
      PostedSplits(rest, reference, code);
      assert rest + [e] == entries;
      EffectOne(rest, e, reference, code);
      if e.reference == reference || e.reference == ReversalOf(reference) {
        assert Others(entries, reference) == Others(rest, reference);
      } else {
        assert Others(entries, reference) == Others(rest, reference) + [e];
        PostedOne(Others(rest, reference), e, code);
      }
    }
  }

  /** Reversing a reference that was not reversed before leaves it with no effect on any account. */
  lemma ReversalCancels(book: Book, reference: string, code: Code)
    requires reference != "" && LinesUnder(book.entries, ReversalOf(reference)) == []
    ensures Effect(ReverseIn(book, reference).entries, reference, code) == 0
    ensures Others(ReverseIn(book, reference).entries, reference) == Others(book.entries, reference)
  {
    var lines := LinesUnder(book.entries, reference);
    if lines != [] {
      var e := Entry(ReversalOf(reference), Swapped(lines));
      EffectOne(book.entries, e, reference, code);
      OthersOne(book.entries, e, reference);
      SwappedNegates(lines, code);
    }
  }

  /** The reference an operation writes under. */
  function Writes(op: Op): string {
    if op.AddAccount? then "" else if op.Reverse? then ReversalOf(op.reference) else op.reference
  }

  /** The operation neither writes under the document's references nor reverses them. */
  predicate Foreign(op: Op, reference: string) {
    && Writes(op) != reference && Writes(op) != ReversalOf(reference)
    && (op.Reverse? ==> op.reference != reference && op.reference != ReversalOf(reference))
  }

  /** The operation posts the document itself. */
  predicate PostsDocument(op: Op, reference: string) {
    op.Post? && op.reference == reference
  }

  lemma {:induction false} OthersLinesUnder(entries: seq<Entry>, reference: string, r: string)
    requires r != reference && r != ReversalOf(reference)
    ensures LinesUnder(Others(entries, reference), r) == LinesUnder(entries, r)
    ensures AlreadyPosted(Others(entries, reference), r) <==> AlreadyPosted(entries, r)
  {
    if entries != [] {
      var rest, e := entries[..|entries| - 1], entries[|entries| - 1];
      OthersLinesUnder(rest, reference, r);
      assert rest + [e] == entries;
      OthersOne(rest, e, reference);
      LinesUnderOne(rest, e, r);
      AlreadyPostedOne(rest, e, r);
      LinesUnderOne(Others(rest, reference), e, r);
      AlreadyPostedOne(Others(rest, reference), e, r);
      NothingAdded(Others(rest, reference), LinesUnder(rest, r));
    }
  }

  lemma NothingAdded<S, T>(a: seq<S>, b: seq<T>)
    ensures a + [] == a && b + [] == b
  {
  }

  lemma AlreadyPostedOne(entries: seq<Entry>, e: Entry, r: string)
    ensures AlreadyPosted(entries + [e], r) <==> AlreadyPosted(entries, r) || Under(e, r)
  {
    var all := entries + [e];
    if AlreadyPosted(entries, r) {
      var i :| 0 <= i < |entries| && Under(entries[i], r);
      assert Under(all[i], r);
    }
    assert all[|entries|] == e;
  }

  lemma ForeignEntry(a: seq<Entry>, e: Entry, reference: string)
    requires e.reference != reference && e.reference != ReversalOf(reference)
    ensures Others(a + [e], reference) == Others(a, reference) + [e]
    ensures LinesUnder(a + [e], reference) == LinesUnder(a, reference)
    ensures LinesUnder(a + [e], ReversalOf(reference)) == LinesUnder(a, ReversalOf(reference))
  {
    OthersOne(a, e, reference);
    LinesUnderOne(a, e, reference);
    LinesUnderOne(a, e, ReversalOf(reference));
  }

  ghost predicate SameUnder(a: Book, b: Book, reference: string) {
    && LinesUnder(a.entries, reference) == LinesUnder(b.entries, reference)
    && LinesUnder(a.entries, ReversalOf(reference)) == LinesUnder(b.entries, ReversalOf(reference))
  }

  lemma ReversalTakesBack(book: Book, reference: string, code: Code)
    ensures Posted(ReverseIn(book, reference).entries, code)
         == Posted(book.entries, code) - Net(LinesUnder(book.entries, reference), code)
  {
    var lines := LinesUnder(book.entries, reference);
    SwappedNegates(lines, code);
    PostedOne(book.entries, Entry(ReversalOf(reference), Swapped(lines)), code);
  }

  // ---------- documents side by side ----------

  /** Document references are distinct, and none is another's reversal. */
  ghost predicate Numbered(ref: nat -> string) {
    && (forall b :: ref(b) != "")
    && (forall b, c :: b != c ==> ref(b) != ref(c))
    && (forall b, c :: ref(b) != ReversalOf(ref(c)))
  }

  /** References of that kind: n + 1 strokes. */
  function Strokes(n: nat): string {
    seq(n + 1, i => '|')
  }

  lemma StrokesAreNumbered()
    ensures Numbered(Strokes)
  {
    forall b: nat, c: nat
      ensures Strokes(b) != "" && (b != c ==> Strokes(b) != Strokes(c)) && Strokes(b) != ReversalOf(Strokes(c))
    {
      assert |Strokes(b)| == b + 1 && |Strokes(c)| == c + 1;
      var reversal := ReversalOf(Strokes(c));
      assert reversal[|reversal| - 1] == 'V' && Strokes(b)[b] == '|';
    }
  }

  /** One posting adds its legs under its own reference and nothing under any other. */
  lemma PostAdds(book: Book, reference: string, t: Template, code: Code)
    requires reference != "" && Legs(t).Some?
    ensures var book' := Step(book, Post(reference, t));
            && Net(LinesUnder(book'.entries, reference), code)
               == Net(LinesUnder(book.entries, reference), code) + Net(Legs(t).value, code)
            && LinesUnder(book'.entries, ReversalOf(reference)) == LinesUnder(book.entries, ReversalOf(reference))
  {
    var book' := Step(book, Post(reference, t));
    var e := book'.entries[|book.entries|];
    assert book'.entries == book.entries + [e] && e.reference == reference;
    LinesUnderOne(book.entries, e, reference);
    LinesUnderOne(book.entries, e, ReversalOf(reference));
    NetAppend(LinesUnder(book.entries, reference), e.lines, code);
    NoLegIsDropped(book, reference, t, code);
    assert |ReversalOf(reference)| != |reference|;
  }

  lemma ForeignKeepsLines(book: Book, op: Op, reference: string)
    requires Foreign(op, reference)
    ensures SameUnder(Step(book, op), book, reference)
  {
    var after := Step(book, op).entries;
    if after != book.entries {
      var e := after[|book.entries|];
      assert after == book.entries + [e] && e.reference == Writes(op);
      ForeignEntry(book.entries, e, reference);
    }
  }

  lemma EffectSame(a: Book, b: Book, reference: string)
    requires SameUnder(a, b, reference)
    ensures forall code :: Effect(a.entries, reference, code) == Effect(b.entries, reference, code)
  {
  }

  lemma ReversalIsForeign(r: string, other: string)
    requires r != other && other != ReversalOf(r) && r != ReversalOf(other)
    ensures Foreign(Reverse(r), other)
  {
    assert ReversalOf(r)[..|r|] == r && ReversalOf(other)[..|other|] == other;
  }
}
