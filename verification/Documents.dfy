/**
 The accounting documents: invoices, credit notes, goods receipts and debit notes. A draft
 may be edited; posting books its template under its own reference, exactly once; a posted
 invoice may be cancelled, which reverses that reference. A cancellation first reads the
 status and later, without a guard, updates it; the other handlers are one step.
 */
module Documents {
  import opened Money
  import opened Ledger
  import opened LedgerBalance
  import opened LedgerReversal
  import opened LedgerAccounts

  datatype Status = Draft | Booked | Void
  datatype Paper = Paper(status: Status, template: Template)

  /** What a cancellation has read of its invoice and not yet acted on. */
  datatype Reading = Reading(paper: nat, status: Status)

  datatype Desk = Desk(papers: seq<Paper>, book: Book, cancels: map<nat, Reading>)

  datatype Event =
    | Create(template: Template)
    | Edit(paper: nat, template: Template)
    | PostPaper(paper: nat)
    | CancelRead(id: nat, paper: nat)
    | CancelFinish(id: nat)
    | Office(posting: Op)

  predicate IsDocument(t: Template) {
    t.SalesInvoice? || t.CreditNote? || t.GoodsReceipt? || t.DebitNote?
  }

  predicate Cancellable(d: Desk, p: nat) {
    p < |d.papers| && d.papers[p].template.SalesInvoice? && d.papers[p].status != Void
  }

  /** The update has no guard; the reversal goes by the status that was read. */
  function Finished(d: Desk, r: Reading, ref: nat -> string): Desk {
    if r.paper >= |d.papers| then d
    else
      d.(papers := d.papers[r.paper := d.papers[r.paper].(status := Void)],
         book := if r.status == Booked then ReverseIn(d.book, ref(r.paper)) else d.book)
  }

  function Next(d: Desk, e: Event, ref: nat -> string): Desk {
    match e
    case Create(t) => if IsDocument(t) then d.(papers := d.papers + [Paper(Draft, t)]) else d
    case Edit(p, t) =>
      if p < |d.papers| && d.papers[p].status == Draft && IsDocument(t)
      then d.(papers := d.papers[p := Paper(Draft, t)]) else d
    case PostPaper(p) =>
      if p < |d.papers| && d.papers[p].status == Draft
      then d.(papers := d.papers[p := d.papers[p].(status := Booked)],
          book := Step(d.book, Post(ref(p), d.papers[p].template)))
      else d
    case CancelRead(id, p) =>
      if Cancellable(d, p) then d.(cancels := d.cancels[id := Reading(p, d.papers[p].status)]) else d
    case CancelFinish(id) =>
      if id in d.cancels then Finished(d.(cancels := d.cancels - {id}), d.cancels[id], ref) else d
    case Office(op) => d.(book := Step(d.book, op))
  }

  function Run(d: Desk, events: seq<Event>, ref: nat -> string): Desk {
    if events == [] then d else Next(Run(d, events[..|events| - 1], ref), events[|events| - 1], ref)
  }

  /** The handlers' own form: guarded updates of a document row, then the ledger. */
  class AccountingDesk {
    var papers: seq<Paper>
    var book: Book
    var cancels: map<nat, Reading>

    ghost function Value(): Desk
      reads this
    {
      Desk(papers, book, cancels)
    }

    method PostDocument(id: nat, ref: nat -> string) returns (accepted: bool)
      modifies this
      ensures Value() == Next(old(Value()), PostPaper(id), ref)
      ensures accepted <==> id < |old(papers)| && old(papers)[id].status == Draft
    {
      if id >= |papers| || papers[id].status != Draft {
        return false;
      }
      papers := papers[id := papers[id].(status := Booked)];
      book := Step(book, Post(ref(id), papers[id].template));
      accepted := true;
    }

    /** The first half of a cancellation: reads the status, or refuses. */
    method ReadForCancel(id: nat, paper: nat, ref: nat -> string) returns (accepted: bool)
      modifies this
      ensures Value() == Next(old(Value()), CancelRead(id, paper), ref)
      ensures accepted <==> Cancellable(old(Value()), paper)
      ensures accepted ==> id in cancels
    {
      if paper >= |papers| || !papers[paper].template.SalesInvoice? {
        return false;
      }
      var status := papers[paper].status;
      if status != Draft && status != Booked {
        return false;
      }
      cancels := cancels[id := Reading(paper, status)];
      accepted := true;
    }

    /** The second half: the update, and the reversal if the invoice was read as posted. */
    method FinishCancel(id: nat, ref: nat -> string)
      requires id in cancels
      modifies this
      ensures Value() == Next(old(Value()), CancelFinish(id), ref)
    {
      var r := cancels[id];
      cancels := cancels - {id};
      if r.paper < |papers| {
        papers := papers[r.paper := papers[r.paper].(status := Void)];
        if r.status == Booked {
          book := ReverseIn(book, ref(r.paper));
        }
      }
    }

    /** Both halves, when nothing comes between them. */
    method CancelSalesInvoice(id: nat, paper: nat, ref: nat -> string) returns (accepted: bool)
      requires id !in cancels
      modifies this
      ensures Value() == Next(Next(old(Value()), CancelRead(id, paper), ref), CancelFinish(id), ref)
      ensures accepted <==> Cancellable(old(Value()), paper)
    {
      accepted := ReadForCancel(id, paper, ref);
      if accepted {
        FinishCancel(id, ref);
      }
    }
  }

  // ---------- a document and its entries ----------

  function StatusOf(papers: seq<Paper>, n: nat): Status {
    if n < |papers| then papers[n].status else Draft
  }

  /** What a document's template moves on an account. */
  function Worth(t: Template, code: Code): int {
    if Legs(t).Some? then Net(Legs(t).value, code) else 0
  }

  /** What a document should move on an account now. */
  function Share(paper: Paper, code: Code): int {
    if paper.status == Booked then Worth(paper.template, code) else 0
  }

  ghost predicate Matches(d: Desk, reference: string, n: nat) {
    match StatusOf(d.papers, n)
    case Draft => LinesUnder(d.book.entries, reference) == [] && LinesUnder(d.book.entries, ReversalOf(reference)) == []
    case Booked =>
      && LinesUnder(d.book.entries, ReversalOf(reference)) == []
      && forall code :: Net(LinesUnder(d.book.entries, reference), code) == Share(d.papers[n], code)
    case Void => forall code :: Effect(d.book.entries, reference, code) == 0
  }

  /** The event books document n. */
  predicate Posts(d: Desk, e: Event, n: nat) {
    e.PostPaper? && e.paper == n && n < |d.papers| && d.papers[n].status == Draft
  }

  /** The event finishes a cancellation that read document n as booked. */
  predicate Reverses(d: Desk, e: Event, n: nat) {
    e.CancelFinish? && e.id in d.cancels && d.cancels[e.id] == Reading(n, Booked) && n < |d.papers|
  }

  predicate WasPosted(d: Desk, events: seq<Event>, ref: nat -> string, n: nat) {
    events != [] &&
    var rest := events[..|events| - 1];
    WasPosted(d, rest, ref, n) || Posts(Run(d, rest, ref), events[|events| - 1], n)
  }

  function Reversals(d: Desk, events: seq<Event>, ref: nat -> string, n: nat): nat {
    if events == [] then 0
    else
      var rest := events[..|events| - 1];
      Reversals(d, rest, ref, n) + if Reverses(Run(d, rest, ref), events[|events| - 1], n) then 1 else 0
  }

  /** A document's status and its history go together. */
  ghost predicate Follows(d: Desk, n: nat, posted: bool, k: nat) {
    && (StatusOf(d.papers, n) == Draft ==> !posted)
    && (StatusOf(d.papers, n) == Booked ==> posted && k == 0)
    && (posted ==> n < |d.papers| && IsDocument(d.papers[n].template))
    && (!posted ==> k == 0)
    && (forall id :: id in d.cancels && d.cancels[id] == Reading(n, Booked) ==> posted)
  }

  /** Posted, it has its template under its reference, and k reversals of that beside it. */
  ghost predicate Recorded(d: Desk, reference: string, n: nat, posted: bool, k: nat) {
    && (!posted ==> LinesUnder(d.book.entries, reference) == [])
    && (k == 0 ==> LinesUnder(d.book.entries, ReversalOf(reference)) == [])
    && forall code ::
         && Net(LinesUnder(d.book.entries, reference), code) ==
             (if posted && n < |d.papers| then Worth(d.papers[n].template, code) else 0)
         && Net(LinesUnder(d.book.entries, ReversalOf(reference)), code) ==
             -(k * Net(LinesUnder(d.book.entries, reference), code))
  }

  lemma FollowsStep(d: Desk, e: Event, ref: nat -> string, n: nat, posted: bool, k: nat)
    requires Follows(d, n, posted, k) && forall p :: p in d.papers ==> IsDocument(p.template)
    ensures Follows(Next(d, e, ref), n, posted || Posts(d, e, n), k + if Reverses(d, e, n) then 1 else 0)
  {
  }

  lemma OtherDocument(d: Desk, e: Event, ref: nat -> string, n: nat)
    requires Numbered(ref) && !Posts(d, e, n) && !Reverses(d, e, n) && (e.Office? ==> Foreign(e.posting, ref(n)))
    ensures SameUnder(Next(d, e, ref).book, d.book, ref(n))
  {
    match e
    case PostPaper(p) => if p < |d.papers| &&
        p != n { ForeignKeepsLines(d.book, Post(ref(p), d.papers[p].template), ref(n)); }
    case CancelFinish(id) =>
      if id in d.cancels && d.cancels[id].paper != n {
        var p := d.cancels[id].paper;
        ReversalIsForeign(ref(p), ref(n));
        ForeignKeepsLines(d.book, Reverse(ref(p)), ref(n));
      }
    case Office(op) => ForeignKeepsLines(d.book, op, ref(n));
    case _ =>
  }

  lemma SameRecorded(d: Desk, d': Desk, reference: string, n: nat, posted: bool, k: nat)
    requires Recorded(d, reference, n, posted, k) && SameUnder(d'.book, d.book, reference)
    requires posted ==> n < |d.papers| && n < |d'.papers| && d'.papers[n].template == d.papers[n].template
    ensures Recorded(d', reference, n, posted, k)
  {
  }

  lemma PostRecorded(d: Desk, d': Desk, reference: string, n: nat)
    requires Recorded(d, reference, n, false, 0) && reference != "" && n < |d.papers|
    requires IsDocument(d.papers[n].template)
    requires d'.book == Step(d.book, Post(reference, d.papers[n].template))
    requires n < |d'.papers| && d'.papers[n].template == d.papers[n].template
    ensures Recorded(d', reference, n, true, 0)
  {
    forall code
      ensures Net(LinesUnder(d'.book.entries, reference), code) == Worth(d'.papers[n].template, code)
      ensures LinesUnder(d'.book.entries, ReversalOf(reference)) == []
    {
      PostAdds(d.book, reference, d.papers[n].template, code);
    }
  }

  /** One more reversal takes the document's lines back once more, and leaves them where they are. */
  lemma ReverseOnce(book: Book, reference: string, code: Code)
    requires reference != ""
    ensures var after := ReverseIn(book, reference).entries;
            && LinesUnder(after, reference) == LinesUnder(book.entries, reference)
            && Net(LinesUnder(after, ReversalOf(reference)), code)
               == Net(LinesUnder(book.entries, ReversalOf(reference)),
                   code) - Net(LinesUnder(book.entries, reference), code)
  {
    var lines := LinesUnder(book.entries, reference);
    if lines != [] {
      var e := Entry(ReversalOf(reference), Swapped(lines));
      assert |ReversalOf(reference)| != |reference|;
      LinesUnderOne(book.entries, e, reference);
      assert lines + [] == lines;
      LinesUnderOne(book.entries, e, ReversalOf(reference));
      NetAppend(LinesUnder(book.entries, ReversalOf(reference)), e.lines, code);
      SwappedNegates(lines, code);
    }
  }

  lemma OneMoreTimes(k: nat, x: int)
    ensures -(k * x) - x == -((k + 1) * x)
  {
  }

  lemma ReverseRecorded(d: Desk, d': Desk, reference: string, n: nat, k: nat)
    requires Recorded(d, reference, n, true, k) && reference != "" && n < |d.papers|
    requires d'.book == ReverseIn(d.book, reference)
    requires n < |d'.papers| && d'.papers[n].template == d.papers[n].template
    ensures Recorded(d', reference, n, true, k + 1)
  {
    forall code
      ensures Net(LinesUnder(d'.book.entries, reference), code) == Worth(d'.papers[n].template, code)
      ensures Net(LinesUnder(d'.book.entries, ReversalOf(reference)), code)
           == -((k + 1) * Net(LinesUnder(d'.book.entries, reference), code))
    {
      ReverseOnce(d.book, reference, code);
      OneMoreTimes(k, Net(LinesUnder(d.book.entries, reference), code));
    }
  }

  lemma RecordedStep(d: Desk, e: Event, ref: nat -> string, n: nat, posted: bool, k: nat)
    requires Numbered(ref) && Follows(d, n, posted, k) && Recorded(d, ref(n), n, posted, k)
    requires (forall p :: p in d.papers ==> IsDocument(p.template)) && (e.Office? ==> Foreign(e.posting, ref(n)))
    ensures Recorded(Next(d, e, ref), ref(n), n, posted || Posts(d, e, n), k + if Reverses(d, e, n) then 1 else 0)
  {
    var d' := Next(d, e, ref);
    if Posts(d, e, n) {
      PostRecorded(d, d', ref(n), n);
    } else if Reverses(d, e, n) {
      ReverseRecorded(d, d', ref(n), n, k);
    } else {
      OtherDocument(d, e, ref, n);
      SameRecorded(d, d', ref(n), n, posted, k);
    }
  }

  ghost predicate Kept(d: Desk, reference: string, n: nat, posted: bool, k: nat) {
    Follows(d, n, posted, k) && Recorded(d, reference, n, posted, k)
  }

  lemma KeptStep(d: Desk, e: Event, ref: nat -> string, n: nat, posted: bool, k: nat)
    requires Numbered(ref) && KeepsClear(e, ref) && Kept(d, ref(n), n, posted, k)
    requires forall p :: p in d.papers ==> IsDocument(p.template)
    ensures Kept(Next(d, e, ref), ref(n), n, posted || Posts(d, e, n), k + if Reverses(d, e, n) then 1 else 0)
  {
    FollowsStep(d, e, ref, n, posted, k);
    RecordedStep(d, e, ref, n, posted, k);
  }

  ghost predicate KeepsClear(e: Event, ref: nat -> string) {
    e.Office? ==> forall n: nat :: Foreign(e.posting, ref(n))
  }

  ghost predicate NothingUnder(book: Book, ref: nat -> string) {
    forall n: nat :: LinesUnder(book.entries, ref(n)) == [] && LinesUnder(book.entries, ReversalOf(ref(n))) == []
  }

  lemma {:induction false} DocumentsStay(d: Desk, events: seq<Event>, ref: nat -> string)
    requires forall p :: p in d.papers ==> IsDocument(p.template)
    ensures forall p :: p in Run(d, events, ref).papers ==> IsDocument(p.template)
  {
    if events != [] {
      DocumentsStay(d, events[..|events| - 1], ref);
    }
  }

  lemma StartIsKept(start: Book, ref: nat -> string, n: nat)
    requires NothingUnder(start, ref)
    ensures Kept(Desk([], start, map[]), ref(n), n, false, 0)
  {
  }

  /** The events so far, and the last. */
  lemma OneMoreEvent(s: Desk, rest: seq<Event>, e: Event, events: seq<Event>, ref: nat -> string, n: nat,
      posted: bool, k: nat)
    requires events != [] && rest == events[..|events| - 1] && e == events[|events| - 1]
    requires posted == WasPosted(s, rest, ref, n) && k == Reversals(s, rest, ref, n)
    ensures Run(s, events, ref) == Next(Run(s, rest, ref), e, ref)
    ensures WasPosted(s, events, ref, n) == (posted || Posts(Run(s, rest, ref), e, n))
    ensures Reversals(s, events, ref, n) == k + if Reverses(Run(s, rest, ref), e, n) then 1 else 0
  {
  }

  lemma RecordedMore(s: Desk, rest: seq<Event>, e: Event, events: seq<Event>, ref: nat -> string, n: nat,
      posted: bool, k: nat)
    requires events != [] && rest == events[..|events| - 1] && e == events[|events| - 1]
    requires posted == WasPosted(s, rest, ref, n) && k == Reversals(s, rest, ref, n)
    requires Numbered(ref) && KeepsClear(e, ref) && s.papers == [] && Kept(Run(s, rest, ref), ref(n), n, posted, k)
    ensures Kept(Run(s, events, ref), ref(n), n, WasPosted(s, events, ref, n), Reversals(s, events, ref, n))
  {
    DocumentsStay(s, rest, ref);
    OneMoreEvent(s, rest, e, events, ref, n, posted, k);
    KeptMore(Run(s, rest, ref), e, Run(s, events, ref), ref, n, posted, k,
             WasPosted(s, events, ref, n), Reversals(s, events, ref, n));
  }

  lemma KeptMore(d: Desk, e: Event, d': Desk, ref: nat -> string, n: nat, posted: bool, k: nat, posted': bool, k': nat)
    requires Numbered(ref) && KeepsClear(e, ref) && Kept(d, ref(n), n, posted, k)
    requires forall p :: p in d.papers ==> IsDocument(p.template)
    requires d' == Next(d, e, ref) && posted' == (posted || Posts(d, e, n))
    requires k' == k + if Reverses(d, e, n) then 1 else 0
    ensures Kept(d', ref(n), n, posted', k')
  {
    KeptStep(d, e, ref, n, posted, k);
  }

  lemma {:induction false} EveryRunIsRecorded(start: Book, events: seq<Event>, ref: nat -> string, n: nat)
    requires Numbered(ref) && NothingUnder(start, ref)
    requires forall i :: 0 <= i < |events| ==> KeepsClear(events[i], ref)
    ensures var s := Desk([], start, map[]);
            Kept(Run(s, events, ref), ref(n), n, WasPosted(s, events, ref, n), Reversals(s, events, ref, n))
  {
    var s := Desk([], start, map[]);
    if events == [] {
      StartIsKept(start, ref, n);
    } else {
      var rest, e := events[..|events| - 1], events[|events| - 1];
      EveryRunIsRecorded(start, rest, ref, n);
      RecordedMore(s, rest, e, events, ref, n, WasPosted(s, rest, ref, n), Reversals(s, rest, ref, n));
    }
  }

  // ---------- cancellations, overlapping or not ----------

  lemma TimesOneLess(k: nat, x: int)
    ensures x - k * x == (1 - k) * x
    ensures (1 - k) * x == 0 <==> k == 1 || x == 0
  {
    NoZeroProduct(1 - k, x);
  }

  lemma NoZeroProduct(a: int, b: int)
    ensures a * b == 0 <==> a == 0 || b == 0
  {
    if a > 0 && b != 0 {
      PositiveProduct(a, if b > 0 then b else -b);
    } else if a < 0 && b != 0 {
      PositiveProduct(-a, if b > 0 then b else -b);
    }
  }

  lemma PositiveProduct(a: int, b: int)
    requires a > 0 && b > 0
    ensures a * b > 0 && a * -b < 0 && -a * b < 0 && -a * -b > 0
  {
  }

  lemma EffectIs(d: Desk, reference: string, n: nat, posted: bool, k: nat, code: Code)
    requires Recorded(d, reference, n, posted, k) && (posted ==> n < |d.papers|)
    ensures Effect(d.book.entries, reference, code) == if posted then (1 - k) * Worth(d.papers[n].template, code) else 0
  {
    TimesOneLess(k, Net(LinesUnder(d.book.entries, reference), code));
  }

  ghost predicate Worthless(t: Template) {
    forall code :: Worth(t, code) == 0
  }

  lemma MatchesExactly(d: Desk, reference: string, n: nat, posted: bool, k: nat)
    requires Follows(d, n, posted, k) && Recorded(d, reference, n, posted, k)
    ensures Matches(d, reference, n) <==>
              (StatusOf(d.papers, n) == Void && posted ==> k == 1 || Worthless(d.papers[n].template))
  {
    forall code
      ensures Effect(d.book.entries, reference, code) ==
                if posted then (1 - k) * Worth(d.papers[n].template, code) else 0
      ensures posted ==> ((1 - k) * Worth(d.papers[n].template, code) == 0 <==>
                k == 1 || Worth(d.papers[n].template, code) == 0)
    {
      EffectIs(d, reference, n, posted, k, code);
      if posted {
        TimesOneLess(k, Worth(d.papers[n].template, code));
      }
    }
  }

  /**
   In every run, however cancellations overlap: a posted document that k cancellations have
   reversed has one minus k times its template on every account; so the ledger agrees with its
   status exactly when it is not cancelled, or was reversed once, or moves nothing at all.
   */
  lemma CancellationsAreExact(start: Book, events: seq<Event>, ref: nat -> string, n: nat, code: Code)
    requires Numbered(ref) && NothingUnder(start, ref)
    requires forall i :: 0 <= i < |events| ==> KeepsClear(events[i], ref)
    ensures var s := Desk([], start, map[]);
            var d, posted, k := Run(s, events, ref), WasPosted(s, events, ref, n), Reversals(s, events, ref, n);
            && (posted ==> n < |d.papers|)
            && Effect(d.book.entries, ref(n), code) ==
                (if posted then (1 - k) * Worth(d.papers[n].template, code) else 0)
            && (Matches(d, ref(n), n) <==>
                (StatusOf(d.papers, n) == Void && posted ==> k == 1 || Worthless(d.papers[n].template)))
  {
    var s := Desk([], start, map[]);
    EveryRunIsRecorded(start, events, ref, n);
    EffectIs(Run(s, events, ref), ref(n), n, WasPosted(s, events, ref, n), Reversals(s, events, ref, n), code);
    MatchesExactly(Run(s, events, ref), ref(n), n, WasPosted(s, events, ref, n), Reversals(s, events, ref, n));
  }

  /** Two cancellations that both read a booked invoice before either acts reverse it twice. */
  lemma OverlappingCancelsReverseTwice(d: Desk, ref: nat -> string, n: nat, code: Code)
    requires Numbered(ref) && Follows(d, n, true, 0) && Recorded(d, ref(n), n, true, 0)
    requires Cancellable(d, n) && d.papers[n].status == Booked && 1 !in d.cancels && 2 !in d.cancels
    ensures var both := Next(Next(d, CancelRead(1, n), ref), CancelRead(2, n), ref);
            var after := Next(Next(both, CancelFinish(1), ref), CancelFinish(2), ref);
            StatusOf(after.papers, n) == Void && Effect(after.book.entries, ref(n), code) ==
                -Worth(d.papers[n].template, code)
  {
    var both := Next(Next(d, CancelRead(1, n), ref), CancelRead(2, n), ref);
    var one := Next(both, CancelFinish(1), ref);
    var two := Next(one, CancelFinish(2), ref);
    assert both.cancels[1] == both.cancels[2] == one.cancels[2] == Reading(n, Booked);
    SameRecorded(d, both, ref(n), n, true, 0);
    ReverseRecorded(both, one, ref(n), n, 0);
    ReverseRecorded(one, two, ref(n), n, 1);
    EffectIs(two, ref(n), n, true, 2, code);
  }

  /** A cancellation that read a draft, and acts after it was posted, reverses nothing. */
  lemma DraftReadBeforePosting(d: Desk, ref: nat -> string, n: nat, code: Code)
    requires Numbered(ref) && Follows(d, n, false, 0) && Recorded(d, ref(n), n, false, 0)
    requires Cancellable(d, n) && d.papers[n].status == Draft
    ensures var after := Next(Next(Next(d, CancelRead(1, n), ref), PostPaper(n), ref), CancelFinish(1), ref);
            StatusOf(after.papers, n) == Void && Effect(after.book.entries, ref(n), code) ==
                Worth(d.papers[n].template, code)
  {
    var read := Next(d, CancelRead(1, n), ref);
    var posted := Next(read, PostPaper(n), ref);
    var after := Next(posted, CancelFinish(1), ref);
    assert read.papers == d.papers && read.book == d.book && read.cancels[1] == Reading(n, Draft);
    SameRecorded(d, read, ref(n), n, false, 0);
    assert posted.cancels == read.cancels && posted.papers[n].template == d.papers[n].template;
    PostRecorded(read, posted, ref(n), n);
    assert after.book == posted.book && after.papers[n] == Paper(Void, d.papers[n].template);
    SameRecorded(posted, after, ref(n), n, true, 0);
    EffectIs(after, ref(n), n, true, 0, code);
  }

  // ---------- the documents and the control accounts ----------

  /** The cancellation finishes on the status it read, or finds a draft cancelled meanwhile. */
  predicate InStep(d: Desk, e: Event) {
    e.CancelFinish? && e.id in d.cancels && d.cancels[e.id].paper < |d.papers| ==>
      var r := d.cancels[e.id];
      var now := d.papers[r.paper].status;
      r.status == now || (r.status == Draft && now == Void)
  }

  predicate AllInStep(d: Desk, events: seq<Event>, ref: nat -> string) {
    events == [] ||
    var rest := events[..|events| - 1];
    AllInStep(d, rest, ref) && InStep(Run(d, rest, ref), events[|events| - 1])
  }

  /** In step, every posted invoice that is cancelled was reversed once. */
  predicate ReversedOnce(d: Desk, n: nat, posted: bool, k: nat) {
    StatusOf(d.papers, n) == Void && posted ==> k == 1
  }

  lemma ReversedOnceStep(d: Desk, e: Event, ref: nat -> string, n: nat, posted: bool, k: nat)
    requires Follows(d, n, posted, k) && ReversedOnce(d, n, posted, k) && InStep(d, e)
    ensures ReversedOnce(Next(d, e, ref), n, posted || Posts(d, e, n), k + if Reverses(d, e, n) then 1 else 0)
  {
  }

  lemma {:induction false} InStepReversesOnce(start: Book, events: seq<Event>, ref: nat -> string, n: nat)
    requires Numbered(ref) && NothingUnder(start, ref) && AllInStep(Desk([], start, map[]), events, ref)
    requires forall i :: 0 <= i < |events| ==> KeepsClear(events[i], ref)
    ensures var s := Desk([], start, map[]);
            ReversedOnce(Run(s, events, ref), n, WasPosted(s, events, ref, n), Reversals(s, events, ref, n))
  {
    if events != [] {
      var s, rest, e := Desk([], start, map[]), events[..|events| - 1], events[|events| - 1];
      InStepReversesOnce(start, rest, ref, n);
      EveryRunIsRecorded(start, rest, ref, n);
      ReversedOnceStep(Run(s, rest, ref), e, ref, n, WasPosted(s, rest, ref, n), Reversals(s, rest, ref, n));
    }
  }

  /** The sub-ledger: what the documents on file say an account has moved. */
  function SubLedger(papers: seq<Paper>, code: Code): int {
    if papers == [] then 0
    else SubLedger(papers[..|papers| - 1], code) + Share(papers[|papers| - 1], code)
  }

  lemma {:induction false} SubLedgerUpdate(papers: seq<Paper>, n: nat, p: Paper, code: Code)
    requires n < |papers|
    ensures SubLedger(papers[n := p], code) == SubLedger(papers, code) + Share(p, code) - Share(papers[n], code)
  {
    var rest := papers[..|papers| - 1];
    if n == |rest| {
      assert papers[n := p][..n] == rest;
    } else {
      SubLedgerUpdate(rest, n, p, code);
      assert papers[n := p][..|rest|] == rest[n := p];
    }
  }

  /** What the office's own postings, made between the documents, move on an account. */
  function OfficeMovement(d: Desk, events: seq<Event>, ref: nat -> string, code: Code): int {
    if events == [] then 0
    else
      var before := Run(d, events[..|events| - 1], ref);
      OfficeMovement(d, events[..|events| - 1], ref, code)
      + if events[|events| - 1].Office?
        then Posted(Next(before, events[|events| - 1], ref).book.entries, code) - Posted(before.book.entries,
            code) else 0
  }

  lemma PostMoves(book: Book, reference: string, t: Template, code: Code)
    requires Legs(t).Some?
    ensures Posted(Step(book, Post(reference, t)).entries, code) ==
              Posted(book.entries, code) + Net(Legs(t).value, code)
  {
    NoLegIsDropped(book, reference, t, code);
    PostedOne(book.entries, Step(book, Post(reference, t)).entries[|book.entries|], code);
  }

  lemma CreateStepMoves(papers: seq<Paper>, t: Template, code: Code)
    ensures SubLedger(papers + [Paper(Draft, t)], code) == SubLedger(papers, code)
  {
    assert (papers + [Paper(Draft, t)])[..|papers|] == papers;
  }

  lemma FinishMoves(d: Desk, e: Event, ref: nat -> string, code: Code)
    requires e.CancelFinish? && e.id in d.cancels && InStep(d, e)
    requires var n := d.cancels[e.id].paper;
             StatusOf(d.papers, n) == Booked ==>
                 Net(LinesUnder(d.book.entries, ref(n)), code) == Share(d.papers[n], code)
    ensures Posted(Next(d, e, ref).book.entries, code) - Posted(d.book.entries, code)
         == SubLedger(Next(d, e, ref).papers, code) - SubLedger(d.papers, code)
  {
    var r := d.cancels[e.id];
    if r.paper < |d.papers| {
      SubLedgerUpdate(d.papers, r.paper, d.papers[r.paper].(status := Void), code);
      if r.status == Booked {
        ReversalTakesBack(d.book, ref(r.paper), code);
      }
    }
  }

  lemma StepMoves(d: Desk, e: Event, ref: nat -> string, code: Code)
    requires InStep(d, e) && !e.Office? && forall p :: p in d.papers ==> IsDocument(p.template)
    requires forall n: nat :: StatusOf(d.papers, n) == Booked ==>
               Net(LinesUnder(d.book.entries, ref(n)), code) == Share(d.papers[n], code)
    ensures Posted(Next(d, e, ref).book.entries, code) - Posted(d.book.entries, code)
         == SubLedger(Next(d, e, ref).papers, code) - SubLedger(d.papers, code)
  {
    var d' := Next(d, e, ref);
    if e.Create? {
      CreateStepMoves(d.papers, e.template, code);
    } else if e.CancelFinish? {
      if e.id in d.cancels {
        FinishMoves(d, e, ref, code);
      }
    } else if (e.Edit? || e.PostPaper?) && d' != d {
      SubLedgerUpdate(d.papers, e.paper, d'.papers[e.paper], code);
      if e.PostPaper? {
        PostMoves(d.book, ref(e.paper), d.papers[e.paper].template, code);
      }
    }
  }

  lemma BookedHaveTheirShare(start: Book, events: seq<Event>, ref: nat -> string, code: Code)
    requires Numbered(ref) && NothingUnder(start, ref)
    requires forall i :: 0 <= i < |events| ==> KeepsClear(events[i], ref)
    ensures var d := Run(Desk([], start, map[]), events, ref);
            forall n: nat :: StatusOf(d.papers, n) == Booked ==>
                Net(LinesUnder(d.book.entries, ref(n)), code) == Share(d.papers[n], code)
  {
    var d := Run(Desk([], start, map[]), events, ref);
    forall n: nat | StatusOf(d.papers, n) == Booked
      ensures Net(LinesUnder(d.book.entries, ref(n)), code) == Share(d.papers[n], code)
    {
      EveryRunIsRecorded(start, events, ref, n);
    }
  }

  lemma {:induction false} ControlAccounts(start: Book, events: seq<Event>, ref: nat -> string, code: Code)
    requires Numbered(ref) && NothingUnder(start, ref) && AllInStep(Desk([], start, map[]), events, ref)
    requires forall i :: 0 <= i < |events| ==> KeepsClear(events[i], ref)
    ensures var d := Run(Desk([], start, map[]), events, ref);
            Posted(d.book.entries, code) == Posted(start.entries, code) + SubLedger(d.papers, code)
                                            + OfficeMovement(Desk([], start, map[]), events, ref, code)
  {
    if events != [] {
      var s, rest, e := Desk([], start, map[]), events[..|events| - 1], events[|events| - 1];
      ControlAccounts(start, rest, ref, code);
      DocumentsStay(s, rest, ref);
      BookedHaveTheirShare(start, rest, ref, code);
      if !e.Office? {
        StepMoves(Run(s, rest, ref), e, ref, code);
      }
    }
  }

  /**
   In every run whose cancellations finish on the status they read, the ledger agrees with the
   documents on file, one by one and in total: a draft has left no entry, a booked document
   exactly its template, a cancelled invoice nothing on any account; and every account has moved
   by the sum of the booked documents plus what the office posted beside them.
   */
  lemma SubLedgerReconciles(start: Book, events: seq<Event>, ref: nat -> string, n: nat, code: Code)
    requires Numbered(ref) && NothingUnder(start, ref) && AllInStep(Desk([], start, map[]), events, ref)
    requires forall i :: 0 <= i < |events| ==> KeepsClear(events[i], ref)
    ensures var d := Run(Desk([], start, map[]), events, ref);
            && Matches(d, ref(n), n)
            && Posted(d.book.entries, code) == Posted(start.entries, code) + SubLedger(d.papers, code)
                                               + OfficeMovement(Desk([], start, map[]), events, ref, code)
  {
    InStepReversesOnce(start, events, ref, n);
    CancellationsAreExact(start, events, ref, n, code);
    ControlAccounts(start, events, ref, code);
  }

  /** In step, a cancelled invoice has left every account where the other entries alone put it. */
  lemma CancelledInvoiceIsGone(start: Book, events: seq<Event>, ref: nat -> string, n: nat, code: Code)
    requires Numbered(ref) && NothingUnder(start, ref) && AllInStep(Desk([], start, map[]), events, ref)
    requires forall i :: 0 <= i < |events| ==> KeepsClear(events[i], ref)
    requires StatusOf(Run(Desk([], start, map[]), events, ref).papers, n) == Void
    ensures var entries := Run(Desk([], start, map[]), events, ref).book.entries;
            Posted(entries, code) == Posted(Others(entries, ref(n)), code)
  {
    SubLedgerReconciles(start, events, ref, n, code);
    PostedSplits(Run(Desk([], start, map[]), events, ref).book.entries, ref(n), code);
  }

  // ---------- which accounts ----------

  /** What a booked document has put on each account, the codes written out. */
  predicate BookedOnAccounts(t: Template, code: int, net: int) {
    match t
    case SalesInvoice(tax, total) =>
      if code == 1200 then net == Round(total)
      else if code == 4000 then net == -Round(total - tax)
      else if code == 2100 then net == -Round(tax)
      else net == 0
    case CreditNote(tax, total) =>
      if code == 1200 then net == -Round(total)
      else if code == 4000 then net == Round(total - tax)
      else if code == 2100 then net == Round(tax)
      else net == 0
    case GoodsReceipt(a) => net == (if code == 1400 then Round(a) else if code == 2000 then -Round(a) else 0)
    case DebitNote(a) => net == (if code == 2000 then Round(a) else if code == 1400 then -Round(a) else 0)
    case _ => false
  }

  lemma WorthOnAccounts(t: Template, code: int)
    requires IsDocument(t)
    ensures BookedOnAccounts(t, code, Worth(t, code))
  {
    assert Worth(t, code) == Moved(t, code);
    match t
    case SalesInvoice(tax, total) => InvoiceMoves(tax, total, code);
    case CreditNote(tax, total) =>
      CreditNoteNegates(tax, total, code);
      InvoiceMoves(tax, total, code);
    case GoodsReceipt(a) => GoodsReceiptMoves(a, code);
    case DebitNote(a) =>
      DebitNoteNegates(a, code);
      GoodsReceiptMoves(a, code);
  }

  /**
   In every run, however cancellations overlap: a booked invoice has its total in the receivable
   1200, its net in revenue 4000 and its tax in 2100, a credit note the opposite; a booked goods
   receipt has its amount in inventory 1400 against the payable 2000, a debit note the opposite;
   and none of them anything elsewhere.
   */
  lemma BookedDocumentAccounts(start: Book, events: seq<Event>, ref: nat -> string, n: nat, code: int)
    requires Numbered(ref) && NothingUnder(start, ref)
    requires forall i :: 0 <= i < |events| ==> KeepsClear(events[i], ref)
    ensures var d := Run(Desk([], start, map[]), events, ref);
            StatusOf(d.papers, n) == Booked ==>
              BookedOnAccounts(d.papers[n].template, code, Net(LinesUnder(d.book.entries, ref(n)), code))
  {
    var d := Run(Desk([], start, map[]), events, ref);
    if StatusOf(d.papers, n) == Booked {
      EveryRunIsRecorded(start, events, ref, n);
      WorthOnAccounts(d.papers[n].template, code);
    }
  }

  // ---------- the trial balance ----------

  /** Documents are whole cents, and the office's postings are, or are even once rounded. */
  predicate EvenEvent(e: Event) {
    match e
    case Create(t) => WholeCents(t)
    case Edit(_, t) => WholeCents(t)
    case Office(op) => EvenOp(op)
    case _ => true
  }

  lemma DeskStepBalanced(d: Desk, e: Event, ref: nat -> string)
    requires Balanced(d.book) && EvenEvent(e) && forall p :: p in d.papers ==> WholeCents(p.template)
    ensures Balanced(Next(d, e, ref).book) && forall p :: p in Next(d, e, ref).papers ==> WholeCents(p.template)
  {
    match e
    case PostPaper(p) => if p < |d.papers| { StepBalanced(d.book, Post(ref(p), d.papers[p].template)); }
    case CancelFinish(id) => if id in d.cancels { StepBalanced(d.book, Reverse(ref(d.cancels[id].paper))); }
    case Office(op) => StepBalanced(d.book, op);
    case _ =>
  }

  /** The trial balance is zero after every run, however cancellations overlap. */
  lemma {:induction false} DeskTrialBalance(start: Book, events: seq<Event>, ref: nat -> string)
    requires Balanced(start) && forall i :: 0 <= i < |events| ==> EvenEvent(events[i])
    ensures var d := Run(Desk([], start, map[]), events, ref);
            && Balanced(d.book) && TrialBalance(d.book.accounts, d.book.entries) == 0
            && forall p :: p in d.papers ==> WholeCents(p.template)
  {
    var s := Desk([], start, map[]);
    if events != [] {
      DeskTrialBalance(start, events[..|events| - 1], ref);
      DeskStepBalanced(Run(s, events[..|events| - 1], ref), events[|events| - 1], ref);
    }
    BalancedBookSumsToZero(Run(s, events, ref).book.accounts, Run(s, events, ref).book.entries);
  }
}
