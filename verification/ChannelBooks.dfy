/** The booking channel and its ledger: what each stay has moved on the accounts. */
module ChannelBooks {
  import opened Money
  import opened Ledger
  import opened LedgerBalance
  import opened LedgerReversal
  import opened Channel

  // ---------- a cancelled reservation leaves no trace in the accounts ----------

  /** Whether document n, a stay's sale or its commission, has been reversed. */
  predicate Reversed(stays: seq<Stay>, n: nat) {
    n / 2 < |stays| && stays[n / 2].cancelled && if n % 2 ==
        0 then stays[n / 2].saleReversed else stays[n / 2].feeReversed
  }

  predicate Live(stays: seq<Stay>, n: nat) {
    n / 2 < |stays| && !stays[n / 2].cancelled
  }

  ghost predicate DocumentWell(st: State, ref: nat -> string, n: nat) {
    && (Reversed(st.stays, n) ==> forall code :: Effect(st.book.entries, ref(n), code) == 0)
    && (Live(st.stays, n) || n / 2 >= |st.stays| ==> LinesUnder(st.book.entries, ReversalOf(ref(n))) == [])
  }

  lemma PostKeeps(book: Book, ref: nat -> string, k: nat, t: Template, n: nat)
    requires Numbered(ref)
    ensures k != n ==> SameUnder(Step(book, Post(ref(k), t)), book, ref(n))
    ensures LinesUnder(Step(book, Post(ref(k), t)).entries, ReversalOf(ref(n))) ==
              LinesUnder(book.entries, ReversalOf(ref(n)))
  {
    if k != n {
      ForeignKeepsLines(book, Post(ref(k), t), ref(n));
    } else if Legs(t).Some? {
      PostAdds(book, ref(n), t, 0);
    }
  }

  lemma SameTwice(a: Book, b: Book, c: Book, reference: string)
    requires SameUnder(a, b, reference) && SameUnder(b, c, reference)
    ensures SameUnder(a, c, reference)
  {
  }

  /** Two postings in a row. */
  lemma TwoPostsKeep(book: Book, ref: nat -> string, j: nat, s: Template, k: nat, t: Template, n: nat)
    requires Numbered(ref)
    ensures var book' := Step(Step(book, Post(ref(j), s)), Post(ref(k), t));
            && (n != j && n != k ==> SameUnder(book', book, ref(n)))
            && LinesUnder(book'.entries, ReversalOf(ref(n))) == LinesUnder(book.entries, ReversalOf(ref(n)))
  {
    var middle := Step(book, Post(ref(j), s));
    PostKeeps(book, ref, j, s, n);
    PostKeeps(middle, ref, k, t, n);
    if n != j && n != k {
      SameTwice(Step(middle, Post(ref(k), t)), middle, book, ref(n));
    }
  }

  lemma PostingsKeep(book: Book, ref: nat -> string, i: nat, p: Price, n: nat)
    requires Numbered(ref)
    ensures var book' := Postings(book, ref, i, p);
            && (n / 2 != i ==> SameUnder(book', book, ref(n)))
            && LinesUnder(book'.entries, ReversalOf(ref(n))) == LinesUnder(book.entries, ReversalOf(ref(n)))
  {
    TwoPostsKeep(book, ref, 2 * i, ChannelSale(p.tax, p.total), 2 * i + 1, ChannelFee(p.commission), n);
  }

  lemma ReverseKeeps(book: Book, ref: nat -> string, k: nat, n: nat)
    requires Numbered(ref) && k != n
    ensures SameUnder(ReverseIn(book, ref(k)), book, ref(n))
  {
    ReversalIsForeign(ref(k), ref(n));
    ForeignKeepsLines(book, Reverse(ref(k)), ref(n));
  }

  lemma SameKeepsDocument(st: State, st': State, ref: nat -> string, n: nat)
    requires DocumentWell(st, ref, n) && SameUnder(st'.book, st.book, ref(n))
    requires Reversed(st'.stays, n) <==> Reversed(st.stays, n)
    requires Live(st'.stays, n) || n / 2 >= |st'.stays| ==> Live(st.stays, n) || n / 2 >= |st.stays|
    ensures DocumentWell(st', ref, n)
  {
    EffectSame(st'.book, st.book, ref(n));
  }

  lemma ReversalsKeep(book: Book, ref: nat -> string, i: nat, sale: bool, fee: bool, n: nat)
    requires Numbered(ref) && n / 2 != i
    ensures SameUnder(Reversals(book, ref, i, sale, fee), book, ref(n))
  {
    var b := Attempted(book, Folio(ref, i), sale);
    ReverseKeeps(book, ref, 2 * i, n);
    ReverseKeeps(b, ref, 2 * i + 1, n);
  }

  lemma SaleIsReversed(book: Book, ref: nat -> string, i: nat, fee: bool, code: Code)
    requires Numbered(ref) && LinesUnder(book.entries, ReversalOf(ref(2 * i))) == []
    ensures Effect(Reversals(book, ref, i, true, fee).entries, ref(2 * i), code) == 0
  {
    var b := ReverseIn(book, Folio(ref, i));
    ReversalCancels(book, ref(2 * i), code);
    ReverseKeeps(b, ref, 2 * i + 1, 2 * i);
    EffectSame(ReverseIn(b, Comm(ref, i)), b, ref(2 * i));
  }

  lemma FeeIsReversed(book: Book, ref: nat -> string, i: nat, sale: bool, code: Code)
    requires Numbered(ref) && LinesUnder(book.entries, ReversalOf(ref(2 * i + 1))) == []
    ensures Effect(Reversals(book, ref, i, sale, true).entries, ref(2 * i + 1), code) == 0
  {
    var b := Attempted(book, Folio(ref, i), sale);
    ReverseKeeps(book, ref, 2 * i, 2 * i + 1);
    ReversalCancels(b, ref(2 * i + 1), code);
  }

  lemma CancelKeepsDocument(st: State, ref: nat -> string, key: Key, sale: bool, fee: bool, n: nat)
    requires Numbered(ref) && DocumentWell(st, ref, n)
    ensures DocumentWell(Cancelled(st, ref, key, sale, fee), ref, n)
  {
    var st' := Cancelled(st, ref, key, sale, fee);
    if st' != st {
      var i := st.records[key].stay.value;
      assert st'.book == Reversals(st.book, ref, i, sale, fee);
      if n / 2 != i {
        ReversalsKeep(st.book, ref, i, sale, fee, n);
        SameKeepsDocument(st, st', ref, n);
      } else if Reversed(st'.stays, n) {
        forall code
          ensures Effect(st'.book.entries, ref(n), code) == 0
        {
          if n % 2 == 0 {
            SaleIsReversed(st.book, ref, i, fee, code);
          } else {
            FeeIsReversed(st.book, ref, i, sale, code);
          }
        }
      }
    }
  }

  lemma BookKeepsDocument(st: State, e: Event, ref: nat -> string, n: nat)
    requires Numbered(ref) && DocumentWell(st, ref, n) && e.JobBooks?
    ensures DocumentWell(Next(st, e, ref), ref, n)
  {
    var st' := Next(st, e, ref);
    if e.job in st.jobs && st.jobs[e.job].stage.Queued? {
      PostingsKeep(st.book, ref, |st.stays|, e.price, n);
      if n / 2 != |st.stays| {
        SameKeepsDocument(st, st', ref, n);
      }
    }
  }

  /** The other events touch neither the ledger nor whether a stay is cancelled. */
  lemma RestKeepsDocument(st: State, e: Event, ref: nat -> string, n: nat)
    requires DocumentWell(st, ref, n) && !e.Cancel? && !e.Office? && !e.JobBooks?
    ensures DocumentWell(Next(st, e, ref), ref, n)
  {
    SameKeepsDocument(st, Next(st, e, ref), ref, n);
  }

  lemma StepKeepsDocument(st: State, e: Event, ref: nat -> string, n: nat)
    requires Numbered(ref) && DocumentWell(st, ref, n) && (e.Office? ==> Foreign(e.posting, ref(n)))
    ensures DocumentWell(Next(st, e, ref), ref, n)
  {
    match e
    case Cancel(key, sale, fee) => CancelKeepsDocument(st, ref, key, sale, fee, n);
    case Office(op) =>
      ForeignKeepsLines(st.book, op, ref(n));
      SameKeepsDocument(st, Next(st, e, ref), ref, n);
    case JobBooks(_, _) => BookKeepsDocument(st, e, ref, n);
    case _ => RestKeepsDocument(st, e, ref, n);
  }

  /**
   In every run, out of turn or not: a cancelled reservation whose reversal succeeded moves no
   account, the entries of its reference and their reversal together; for the sale and, alike,
   for the commission.
   */
  lemma {:induction false} CancelledLeavesNoTrace(book: Book, events: seq<Event>, ref: nat -> string, n: nat)
    requires Numbered(ref) && LinesUnder(book.entries, ReversalOf(ref(n))) == []
    requires forall i :: 0 <= i < |events| && events[i].Office? ==> Foreign(events[i].posting, ref(n))
    ensures DocumentWell(Follow(State(map[], [], map[], book), events, ref), ref, n)
  {
    if events != [] {
      CancelledLeavesNoTrace(book, events[..|events| - 1], ref, n);
      StepKeepsDocument(Follow(State(map[], [], map[], book), events[..|events| - 1], ref), events[|events| - 1], ref,
          n);
    }
  }

  // ---------- what a stay has booked ----------

  /** The receivable, the revenue without tax, and the tax of a stay. */
  function SaleMovement(p: Price, code: Code): int {
    if code == RECEIVABLE then Round(p.total)
    else if code == SALES then -Round(p.total - Round(p.tax) as real)
    else if code == GST then -Round(p.tax)
    else 0
  }

  /** The commission, an expense owed to the channel. */
  function FeeMovement(p: Price, code: Code): int {
    if Round(p.commission) <= 0 then 0
    else if code == COMMISSION then Round(p.commission)
    else if code == PAYABLE then -Round(p.commission)
    else 0
  }

  /** The sale of stay i, or its commission, is booked under the reference; before the stay there is nothing. */
  ghost predicate DocumentBooked(st: State, i: nat, fee: bool, reference: string, code: Code) {
    if i >= |st.stays| then !AlreadyPosted(st.book.entries, reference) && LinesUnder(st.book.entries, reference) == []
    else
      Net(LinesUnder(st.book.entries, reference), code)
      == if fee then FeeMovement(st.stays[i].price, code) else SaleMovement(st.stays[i].price, code)
  }

  lemma SaleNet(p: Price, code: Code)
    ensures Net(Legs(ChannelSale(p.tax, p.total)).value, code) == SaleMovement(p, code)
  {
    var tax := Round(p.tax);
    RoundWhole(tax);
    var a, b, c := Line(RECEIVABLE, Round(p.total), 0), Line(SALES, 0, Round(p.total - tax as real)), Line(GST, 0, tax);
    assert Legs(ChannelSale(p.tax, p.total)).value == [a, b, c];
    ThreeLines(a, b, c, code);
    TwoLines(a, b, code);
    TwoLines(b, c, code);
    TwoLines(c, a, code);
  }

  lemma FeeNet(p: Price, code: Code)
    requires Legs(ChannelFee(p.commission)).Some?
    ensures Net(Legs(ChannelFee(p.commission)).value, code) == FeeMovement(p, code)
  {
    var legs := Legs(ChannelFee(p.commission)).value;
    TwoLines(legs[0], legs[1], code);
    TwoLines(legs[1], legs[0], code);
  }

  ghost predicate SameAt(a: Book, b: Book, reference: string) {
    && LinesUnder(a.entries, reference) == LinesUnder(b.entries, reference)
    && (AlreadyPosted(a.entries, reference) <==> AlreadyPosted(b.entries, reference))
  }

  /** What is written elsewhere neither adds lines under a reference nor marks it as posted. */
  lemma WrittenElsewhere(book: Book, op: Op, reference: string)
    requires Writes(op) != reference
    ensures SameAt(Step(book, op), book, reference)
  {
    var after := Step(book, op).entries;
    if after != book.entries {
      var e := after[|book.entries|];
      assert after == book.entries + [e] && e.reference == Writes(op);
      LinesUnderOne(book.entries, e, reference);
      AlreadyPostedOne(book.entries, e, reference);
    }
  }

  lemma BothElsewhere(a: Book, b: Book, c: Book, reference: string)
    requires SameAt(a, b, reference) && SameAt(b, c, reference)
    ensures SameAt(a, c, reference)
  {
  }

  lemma TwoPostsElsewhere(book: Book, r: string, s: Template, q: string, t: Template, reference: string)
    requires r != reference && q != reference
    ensures SameAt(Step(Step(book, Post(r, s)), Post(q, t)), book, reference)
  {
    WrittenElsewhere(book, Post(r, s), reference);
    WrittenElsewhere(Step(book, Post(r, s)), Post(q, t), reference);
    BothElsewhere(Step(Step(book, Post(r, s)), Post(q, t)), Step(book, Post(r, s)), book, reference);
  }

  lemma PostingsElsewhere(book: Book, ref: nat -> string, i: nat, p: Price, reference: string)
    requires reference != Folio(ref, i) && reference != Comm(ref, i)
    ensures SameAt(Postings(book, ref, i, p), book, reference)
  {
    TwoPostsElsewhere(book, Folio(ref, i), ChannelSale(p.tax, p.total), Comm(ref, i), ChannelFee(p.commission),
        reference);
  }

  lemma AttemptElsewhere(book: Book, r: string, succeeds: bool, reference: string)
    requires ReversalOf(r) != reference
    ensures SameAt(Attempted(book, r, succeeds), book, reference)
  {
    WrittenElsewhere(book, Reverse(r), reference);
  }

  lemma SaleIsBooked(book: Book, ref: nat -> string, i: nat, p: Price, code: Code)
    requires Numbered(ref) && LinesUnder(book.entries, ref(2 * i)) == []
    ensures var book' := Step(Step(book, Post(ref(2 * i), ChannelSale(p.tax, p.total))),
              Post(ref(2 * i + 1), ChannelFee(p.commission)));
            Net(LinesUnder(book'.entries, ref(2 * i)), code) == SaleMovement(p, code)
  {
    var middle := Step(book, Post(ref(2 * i), ChannelSale(p.tax, p.total)));
    PostAdds(book, ref(2 * i), ChannelSale(p.tax, p.total), code);
    SaleNet(p, code);
    WrittenElsewhere(middle, Post(ref(2 * i + 1), ChannelFee(p.commission)), ref(2 * i));
  }

  lemma FeeIsBooked(book: Book, ref: nat -> string, i: nat, p: Price, code: Code)
    requires Numbered(ref) && LinesUnder(book.entries, ref(2 * i + 1)) == []
    ensures var book' := Step(Step(book, Post(ref(2 * i), ChannelSale(p.tax, p.total))),
              Post(ref(2 * i + 1), ChannelFee(p.commission)));
            Net(LinesUnder(book'.entries, ref(2 * i + 1)), code) == FeeMovement(p, code)
  {
    var middle := Step(book, Post(ref(2 * i), ChannelSale(p.tax, p.total)));
    WrittenElsewhere(book, Post(ref(2 * i), ChannelSale(p.tax, p.total)), ref(2 * i + 1));
    FeeAdds(middle, ref(2 * i + 1), p, code);
  }

  lemma FeeAdds(book: Book, reference: string, p: Price, code: Code)
    requires reference != "" && LinesUnder(book.entries, reference) == []
    ensures Net(LinesUnder(Step(book, Post(reference, ChannelFee(p.commission))).entries, reference), code) ==
              FeeMovement(p, code)
  {
    if Legs(ChannelFee(p.commission)).Some? {
      PostAdds(book, reference, ChannelFee(p.commission), code);
      FeeNet(p, code);
    }
  }

  lemma ReversalsElsewhere(book: Book, ref: nat -> string, i: nat, sale: bool, fee: bool, reference: string)
    requires reference != ReversalOf(Folio(ref, i)) && reference != ReversalOf(Comm(ref, i))
    ensures SameAt(Reversals(book, ref, i, sale, fee), book, reference)
  {
    var b := Attempted(book, Folio(ref, i), sale);
    AttemptElsewhere(book, Folio(ref, i), sale, reference);
    AttemptElsewhere(b, Comm(ref, i), fee, reference);
    BothElsewhere(Attempted(b, Comm(ref, i), fee), b, book, reference);
  }

  /** The books of a step that leaves the stay and, at its reference, the ledger alone. */
  lemma SameBooked(st: State, st': State, i: nat, fee: bool, reference: string, code: Code)
    requires DocumentBooked(st, i, fee, reference, code) && SameAt(st'.book, st.book, reference)
    requires i < |st.stays| <==> i < |st'.stays|
    requires i < |st.stays| ==> st'.stays[i].price == st.stays[i].price
    ensures DocumentBooked(st', i, fee, reference, code)
  {
  }

  function Reference(ref: nat -> string, i: nat, fee: bool): string {
    if fee then Comm(ref, i) else Folio(ref, i)
  }

  lemma ReferencesDiffer(ref: nat -> string, i: nat, fee: bool, k: nat)
    requires Numbered(ref)
    ensures var r := Reference(ref, i, fee);
            && (i != k ==> r != Folio(ref, k) && r != Comm(ref, k))
            && r != ReversalOf(Folio(ref, k)) && r != ReversalOf(Comm(ref, k))
  {
    assert i != k ==> 2 * i != 2 * k && 2 * i != 2 * k + 1 && 2 * i + 1 != 2 * k;
  }

  /** The stay's two postings, made now. */
  lemma NewStayBooks(book: Book, ref: nat -> string, i: nat, p: Price, fee: bool, code: Code)
    requires Numbered(ref) && !AlreadyPosted(book.entries, Folio(ref, i))
    requires LinesUnder(book.entries, Reference(ref, i, fee)) == []
    ensures Net(LinesUnder(Postings(book, ref, i, p).entries, Reference(ref, i, fee)), code)
         == if fee then FeeMovement(p, code) else SaleMovement(p, code)
  {
    if fee {
      FeeIsBooked(book, ref, i, p, code);
    } else {
      SaleIsBooked(book, ref, i, p, code);
    }
  }

  lemma BookingBooks(st: State, e: Event, ref: nat -> string, i: nat, fee: bool, code: Code)
    requires Numbered(ref) && e.JobBooks? && DocumentBooked(st, i, false, Folio(ref, i), code)
    requires DocumentBooked(st, i, fee, Reference(ref, i, fee), code)
    ensures DocumentBooked(Next(st, e, ref), i, fee, Reference(ref, i, fee), code)
  {
    if e.job in st.jobs && st.jobs[e.job].stage.Queued? {
      if i != |st.stays| {
        ReferencesDiffer(ref, i, fee, |st.stays|);
        PostingsElsewhere(st.book, ref, |st.stays|, e.price, Reference(ref, i, fee));
        SameBooked(st, Next(st, e, ref), i, fee, Reference(ref, i, fee), code);
      } else {
        NewStayBooks(st.book, ref, i, e.price, fee, code);
      }
    }
  }

  lemma CancellingKeepsBooked(st: State, e: Event, ref: nat -> string, i: nat, fee: bool, code: Code)
    requires Numbered(ref) && e.Cancel? && DocumentBooked(st, i, fee, Reference(ref, i, fee), code)
    ensures DocumentBooked(Next(st, e, ref), i, fee, Reference(ref, i, fee), code)
  {
    if Next(st, e, ref) != st {
      var k := st.records[e.key].stay.value;
      ReferencesDiffer(ref, i, fee, k);
      ReversalsElsewhere(st.book, ref, k, e.saleReverses, e.feeReverses, Reference(ref, i, fee));
      SameBooked(st, Next(st, e, ref), i, fee, Reference(ref, i, fee), code);
    }
  }

  lemma OfficeKeepsBooked(st: State, e: Event, ref: nat -> string, i: nat, fee: bool, reference: string, code: Code)
    requires e.Office? && Writes(e.posting) != reference && DocumentBooked(st, i, fee, reference, code)
    ensures DocumentBooked(Next(st, e, ref), i, fee, reference, code)
  {
    WrittenElsewhere(st.book, e.posting, reference);
    SameBooked(st, Next(st, e, ref), i, fee, reference, code);
  }

  lemma StepBooks(st: State, e: Event, ref: nat -> string, i: nat, fee: bool, code: Code)
    requires Numbered(ref) && (e.Office? ==> Writes(e.posting) != Reference(ref, i, fee))
    requires DocumentBooked(st, i, false, Folio(ref, i), code)
    requires DocumentBooked(st, i, fee, Reference(ref, i, fee), code)
    ensures DocumentBooked(Next(st, e, ref), i, fee, Reference(ref, i, fee), code)
  {
    match e
    case JobBooks(_, _) => BookingBooks(st, e, ref, i, fee, code);
    case Cancel(_, _, _) => CancellingKeepsBooked(st, e, ref, i, fee, code);
    case Office(_) => OfficeKeepsBooked(st, e, ref, i, fee, Reference(ref, i, fee), code);
    case _ => SameBooked(st, Next(st, e, ref), i, fee, Reference(ref, i, fee), code);
  }

  ghost predicate NothingPosted(book: Book, reference: string) {
    !AlreadyPosted(book.entries, reference) && LinesUnder(book.entries, reference) == []
  }

  ghost predicate StayIsBooked(st: State, ref: nat -> string, i: nat, code: Code) {
    DocumentBooked(st, i, false, Folio(ref, i), code) && DocumentBooked(st, i, true, Comm(ref, i), code)
  }

  /** The posting is not made under a reference of stay i. */
  predicate KeepsOff(e: Event, ref: nat -> string, i: nat) {
    e.Office? ==> Writes(e.posting) != Folio(ref, i) && Writes(e.posting) != Comm(ref, i)
  }

  lemma StepBooksStay(st: State, e: Event, ref: nat -> string, i: nat, code: Code)
    requires Numbered(ref) && KeepsOff(e, ref, i) && StayIsBooked(st, ref, i, code)
    ensures StayIsBooked(Next(st, e, ref), ref, i, code)
  {
    StepBooks(st, e, ref, i, false, code);
    StepBooks(st, e, ref, i, true, code);
  }

  /**
   In every run, out of turn or not, every stay ever booked has its receivable, its revenue,
   its tax and its commission under its own references, account by account.
   */
  lemma {:induction false} EveryStayIsBooked(book: Book, events: seq<Event>, ref: nat -> string, i: nat, code: Code)
    requires Numbered(ref) && NothingPosted(book, Folio(ref, i)) && NothingPosted(book, Comm(ref, i))
    requires forall k :: 0 <= k < |events| ==> KeepsOff(events[k], ref, i)
    ensures StayIsBooked(Follow(State(map[], [], map[], book), events, ref), ref, i, code)
  {
    if events != [] {
      EveryStayIsBooked(book, events[..|events| - 1], ref, i, code);
      StepBooksStay(Follow(State(map[], [], map[], book), events[..|events| - 1], ref), events[|events| - 1], ref, i,
          code);
    }
  }

  // ---------- the trial balance ----------

  /** The channel's prices and the office's postings are whole cents, or even once rounded. */
  predicate EvenEvent(e: Event) {
    match e
    case JobBooks(_, p) => IsWhole(p.tax) && IsWhole(p.total)
    case Office(op) => EvenOp(op)
    case _ => true
  }

  lemma PostingsBalanced(book: Book, ref: nat -> string, i: nat, p: Price)
    requires Balanced(book) && IsWhole(p.tax) && IsWhole(p.total)
    ensures Balanced(Postings(book, ref, i, p))
  {
    StepBalanced(book, Post(Folio(ref, i), ChannelSale(p.tax, p.total)));
    StepBalanced(Step(book, Post(Folio(ref, i), ChannelSale(p.tax, p.total))),
        Post(Comm(ref, i), ChannelFee(p.commission)));
  }

  lemma ReversalsBalanced(book: Book, ref: nat -> string, i: nat, sale: bool, fee: bool)
    requires Balanced(book)
    ensures Balanced(Reversals(book, ref, i, sale, fee))
  {
    StepBalanced(book, Reverse(Folio(ref, i)));
    StepBalanced(Attempted(book, Folio(ref, i), sale), Reverse(Comm(ref, i)));
  }

  lemma ChannelStepBalanced(st: State, e: Event, ref: nat -> string)
    requires Balanced(st.book) && EvenEvent(e)
    ensures Balanced(Next(st, e, ref).book)
  {
    match e
    case JobBooks(_, p) => PostingsBalanced(st.book, ref, |st.stays|, p);
    case Cancel(key, sale, fee) =>
      if Next(st, e, ref) != st { ReversalsBalanced(st.book, ref, st.records[key].stay.value, sale, fee); }
    case Office(op) => StepBalanced(st.book, op);
    case _ =>
  }

  /** The trial balance is zero after every run of the channel, in turn or not. */
  lemma {:induction false} ChannelTrialBalance(st: State, events: seq<Event>, ref: nat -> string)
    requires Balanced(st.book) && forall i :: 0 <= i < |events| ==> EvenEvent(events[i])
    ensures var b := Follow(st, events, ref).book; Balanced(b) && TrialBalance(b.accounts, b.entries) == 0
  {
    if events != [] {
      ChannelTrialBalance(st, events[..|events| - 1], ref);
      ChannelStepBalanced(Follow(st, events[..|events| - 1], ref), events[|events| - 1], ref);
    }
    BalancedBookSumsToZero(Follow(st, events, ref).book.accounts, Follow(st, events, ref).book.entries);
  }
}
