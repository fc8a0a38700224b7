/** What each dine-in request asks of a sound state, in terms of the party's bill. */
module DineInGuards {
  import opened Money
  import opened Options
  import opened Ledger
  import opened DineIn
  import opened DineInInvariants
  import opened DineInTheorems
  import opened DineInCharges

  // ---------- the kitchen ----------

  /** The moves of a ticket: forward one stage, past the acknowledgement, or cancelled before it is prepared. */
  lemma AdvancesExactly(st: State, k: nat, to: KotStatus)
    ensures UpdateKotStatus(st, k, to).Accepted? <==>
              && k < |st.kots|
              && var from := st.kots[k].status;
                 || (from == Draft && to == Sent)
                 || (from == Sent && to == Acknowledged)
                 || (from == Sent && to == Preparing)
                 || (from == Acknowledged && to == Preparing)
                 || (from == Preparing && to == Ready)
                 || (from == Ready && to == Served)
                 || (to == KotCancelled && (from == Draft || from == Sent || from == Acknowledged))
    ensures UpdateKotStatus(st, k, to).Accepted? ==>
              UpdateKotStatus(st, k, to).state.kots == st.kots[k := Kot(st.kots[k].session, to)]
  {
  }

  /** Sending a ticket is its first move, and nothing else. */
  lemma SendsExactly(st: State, k: nat)
    ensures SendKot(st, k).Accepted? <==> k < |st.kots| && st.kots[k].status == Draft
    ensures SendKot(st, k).Accepted? ==> SendKot(st, k) == UpdateKotStatus(st, k, Sent)
  {
  }

  function Stage(n: nat): KotStatus
    requires n <= 5
  {
    [Draft, Sent, Acknowledged, Preparing, Ready, Served][n]
  }

  /** The requests that take a draft ticket through the kitchen. */
  function Cooking(k: nat, n: nat): seq<Request>
    requires n <= 5
  {
    if n == 0 then [] else Cooking(k, n - 1) + [DoAdvance(k, Stage(n))]
  }

  lemma ServeOne(st: State, ops: seq<Request>, op: Request)
    ensures Serve(st, ops + [op]) == Apply(Serve(st, ops), op)
  {
    assert (ops + [op])[..|ops|] == ops;
  }

  lemma NextStage(st: State, k: nat, n: nat)
    requires k < |st.kots| && 0 < n <= 5 && st.kots[k].status == Stage(n - 1)
    ensures Apply(st, DoAdvance(k, Stage(n))).kots == st.kots[k := Kot(st.kots[k].session, Stage(n))]
  {
    AdvancesExactly(st, k, Stage(n));
  }

  lemma SameTicket(kots: seq<Kot>, k: nat, first: Kot, second: Kot)
    requires k < |kots|
    ensures kots[k := first][k := second] == kots[k := second]
  {
  }

  /** A draft ticket reaches every stage, step by step. */
  lemma {:induction false} EveryStageIsReached(st: State, k: nat, n: nat)
    requires k < |st.kots| && st.kots[k].status == Draft && n <= 5
    ensures Serve(st, Cooking(k, n)).kots == st.kots[k := Kot(st.kots[k].session, Stage(n))]
  {
    if n > 0 {
      EveryStageIsReached(st, k, n - 1);
      var st' := Serve(st, Cooking(k, n - 1));
      ServeOne(st, Cooking(k, n - 1), DoAdvance(k, Stage(n)));
      NextStage(st', k, n);
      SameTicket(st.kots, k, st'.kots[k], Kot(st.kots[k].session, Stage(n)));
    }
  }

  // ---------- the session ----------

  /** In a sound state the index on active sessions refuses nothing that the table's status lets through. */
  lemma OpensExactly(st: State, t: nat)
    requires Sound(st)
    ensures OpenSession(st, t).Accepted? <==> t < |st.tables| && (st.tables[t] == Available || st.tables[t] == Reserved)
    ensures OpenSession(st, t).Accepted? ==>
              var st' := OpenSession(st, t).state;
              && st'.tables == st.tables[t := Occupied]
              && |st'.sessions| == |st.sessions| + 1 && st'.sessions[|st.sessions|] == Session(t, Open)
  {
  }

  /** The party's bill, if it has one, is neither paid nor refunded. */
  ghost predicate Unsettled(st: State, s: nat) {
    forall b :: 0 <= b < |st.bills| && st.bills[b].session == s ==>
      st.bills[b].status != Paid && st.bills[b].status != Refunded
  }

  lemma UnsettledIsOccupying(st: State, s: nat)
    requires Sound(st) && s < |st.sessions|
    ensures Unsettled(st, s) <==> st.sessions[s].status == Open || st.sessions[s].status == Billed
  {
    var c := BillOf(st.bills, s);
    if c < |st.bills| {
      SessionOfBill(st, c);
      forall b | 0 <= b < |st.bills| && st.bills[b].session == s
        ensures b == c
      {
        BillOfUnique(st.bills, b);
      }
    } else {
      UnbilledIsOpen(st, s);
    }
  }

  /** A party orders until its bill is paid or refunded, even after it was presented. */
  lemma OrdersExactly(st: State, s: nat, lines: seq<OrderLine>)
    requires Sound(st)
    ensures CreateKot(st, s, lines).Accepted? <==>
              && s < |st.sessions| && Unsettled(st, s)
              && |lines| > 0 && forall i :: 0 <= i < |lines| ==> lines[i].named && lines[i].quantity >= 1
  {
    if s < |st.sessions| {
      UnsettledIsOccupying(st, s);
    }
  }

  /** An item comes off until the bill is finalized. */
  lemma VoidsExactly(st: State, k: nat, i: nat, reason: bool)
    requires Sound(st)
    ensures VoidItem(st, k, i, reason).Accepted? <==>
              && reason && i < |st.items| && st.items[i].kot == k && st.items[i].status != Voided
              && forall b :: 0 <= b < |st.bills| && st.bills[b].session == st.kots[k].session ==>
                   st.bills[b].status == BillOpen
    ensures VoidItem(st, k, i, reason).Accepted? ==>
              VoidItem(st, k, i, reason).state.items == st.items[i := st.items[i].(status := Voided)]
  {
    if i < |st.items| && st.items[i].kot == k {
      var s := st.kots[k].session;
      forall b | 0 <= b < |st.bills| && st.bills[b].session == s
        ensures b == BillOf(st.bills, s)
      {
        BillOfUnique(st.bills, b);
      }
    }
  }

  /** A party can be billed once something is on it; the bill charges the rate on all of it, and nothing else. */
  lemma BillsExactly(st: State, s: nat, rate: int)
    requires Sound(st)
    ensures GenerateBill(st, s, rate).Accepted? <==>
              && s < |st.sessions| && st.sessions[s].status != Closed
              && (HasBill(st.bills, s) || LiveTotal(st.items, st.kots, s) > 0)
    ensures GenerateBill(st, s, rate).Accepted? && !HasBill(st.bills, s) ==>
              var st' := GenerateBill(st, s, rate).state;
              var bill := st'.bills[|st.bills|];
              var c := bill.charges;
              && |st'.bills| == |st.bills| + 1
              && bill.session == s && bill.status == BillOpen && bill.paid == 0 && bill.due == c.total
              && c.subtotal == LiveTotal(st.items, st.kots, s) && c.taxRate == rate
              && c.discountAmount == 0 && c.tipAmount == 0 && c.rounding == 0 && WellCharged(c)
              && st'.sessions[s].status == Billed && st'.tables[st.sessions[s].table] == TableBilled
  {
    if GenerateBill(st, s, rate).Accepted? && !HasBill(st.bills, s) {
      TotalsAreWell(LiveTotal(st.items, st.kots, s), NoAdjustment, 0, rate, NoAdjustment, 0, 0);
    }
  }

  /** A session closes once: when its bill has been paid and it is still at its table. */
  lemma ClosesExactly(st: State, s: nat)
    requires Sound(st)
    ensures CloseSession(st, s).Accepted? <==>
              && s < |st.sessions| && st.sessions[s].status != Closed
              && exists b :: 0 <= b < |st.bills| && st.bills[b].session == s && st.bills[b].status == Paid
    ensures CloseSession(st, s).Accepted? ==>
              var st' := CloseSession(st, s).state;
              && st'.sessions == st.sessions[s := Session(st.sessions[s].table, Closed)]
              && st'.tables == st.tables[st.sessions[s].table := Cleaning]
  {
    if s < |st.sessions| {
      forall b | 0 <= b < |st.bills| && st.bills[b].session == s
        ensures Agrees(st.bills[b].status, st.sessions[s].status)
      {
        SessionOfBill(st, b);
      }
      assert st.sessions[s].status != Open ==> HasBill(st.bills, s);
    }
  }

  // ---------- the bill ----------

  /** Whether the payment meets what its method asks for. */
  predicate MethodAllows(p: PaymentRequest, due: int) {
    match p.mode
    case Cash => p.tendered.None? || p.tendered.value >= p.amount
    case Card => p.txnReference && Round(p.amount) <= due
    case Upi => p.txnReference && Round(p.amount) <= due
    case Wallet => Round(p.amount) <= due
    case RoomCharge => p.checkedInGuest && Round(p.amount) <= due
    case OnAccount => false
    case OtherMode => false
  }

  lemma DueIsLeft(st: State, b: nat)
    requires Sound(st) && b < |st.bills|
    requires st.bills[b].status == Finalized || st.bills[b].status == PartiallyPaid
    ensures st.bills[b].paid >= 0 && st.bills[b].due == st.bills[b].charges.total - st.bills[b].paid
  {
    assert Reconciled(st.bills[b], PaidOn(st.payments, b, false), PaidOn(st.payments, b, true),
        MirroredOn(st.mirrors, b));
  }

  /**
   A payment is taken on a finalized bill until nothing is due: in cash whatever the amount, by
   any other method no more than is due. It is recorded in whole cents, and settles the bill and
   its session exactly when it covers what is due.
   */
  lemma PaysExactly(st: State, b: nat, p: PaymentRequest)
    requires Sound(st)
    ensures AddPayment(st, b, p).Accepted? <==>
              && b < |st.bills| && (st.bills[b].status == Finalized || st.bills[b].status == PartiallyPaid)
              && p.amount > 0.0 && MethodAllows(p, st.bills[b].due)
    ensures AddPayment(st, b, p).Accepted? ==>
              var st', cents, due := AddPayment(st, b, p).state, Round(p.amount), st.bills[b].due;
              var bill, s := st'.bills[b], st.bills[b].session;
              && bill.paid == st.bills[b].paid + cents && bill.due == Max(0, due - cents)
              && bill.charges == st.bills[b].charges && bill.session == s
              && (if cents >= due then bill.status == Paid && st'.sessions[s].status == Settled
                  else bill.status == PartiallyPaid && st'.sessions == st.sessions)
              && st'.payments == st.payments + [Payment(b, p.mode, cents)]
              && st'.mirrors == (if p.mode == RoomCharge then st.mirrors else st.mirrors + [Mirror(b, cents)])
  {
    if b < |st.bills| && (st.bills[b].status == Finalized || st.bills[b].status == PartiallyPaid) && p.amount > 0.0 {
      DueIsLeft(st, b);
      RoundShift(p.amount, st.bills[b].paid);
      CreditedAmount(st.bills[b], p.amount);
    }
  }

  /** An open bill can be finalized, and nothing but its status changes. */
  lemma FinalizesExactly(st: State, b: nat)
    ensures FinalizeBill(st, b).Accepted? <==> b < |st.bills| && st.bills[b].status == BillOpen
    ensures FinalizeBill(st, b).Accepted? ==>
              FinalizeBill(st, b).state == st.(bills := st.bills[b := st.bills[b].(status := Finalized)])
  {
  }

  /** A bill can be refunded once something was paid on it, or nothing had to be; the whole of it goes back. */
  lemma RefundsExactly(st: State, b: nat)
    requires Sound(st)
    ensures RefundBill(st, b).Accepted? <==> b < |st.bills| && (st.bills[b].status in {PartiallyPaid, Paid})
    ensures RefundBill(st, b).Accepted? ==>
              var st' := RefundBill(st, b).state;
              && st'.bills[b].status == Refunded && st'.sessions[st.bills[b].session].status == SessionRefunded
              && st'.bills[b].paid == st.bills[b].paid && st'.payments == st.payments
              && MirroredOn(st'.mirrors, b) == MirroredOn(st.mirrors, b) - st.bills[b].paid
  {
    if RefundBill(st, b).Accepted? {
      assert st.bills[b].paid >= 0 by {
        assert Reconciled(st.bills[b], PaidOn(st.payments, b, false), PaidOn(st.payments, b, true),
            MirroredOn(st.mirrors, b));
      }
      MirroredOnOne(st.mirrors, Mirror(b, -st.bills[b].paid), b);
    }
  }

  // ---------- what the floor plan shows ----------

  /** The table of a party still seated. */
  predicate ShowsBill(st: State, s: nat) {
    s < |st.sessions| && Active(st.sessions[s].status) && st.sessions[s].table < |st.tables| ==>
      st.tables[st.sessions[s].table] == if HasBill(st.bills, s) then TableBilled else Occupied
  }

  lemma NewPartyHasNoBill(st: State, s: nat)
    requires Sound(st) && s >= |st.sessions|
    ensures !HasBill(st.bills, s)
  {
    assert forall b :: 0 <= b < |st.bills| ==> st.bills[b].session < |st.sessions|;
  }

  lemma ShowsBillWhenOpened(st: State, t: nat, s: nat)
    requires Sound(st) && ShowsBill(st, s)
    ensures ShowsBill(Apply(st, DoOpen(t)), s)
  {
    if s >= |st.sessions| {
      NewPartyHasNoBill(st, s);
    }
  }

  lemma ShowsBillWhenClosed(st: State, r: nat, s: nat)
    requires Sound(st) && ShowsBill(st, s)
    ensures ShowsBill(Apply(st, DoClose(r)), s)
  {
    if CloseSession(st, r).Accepted? && s != r {
      OthersInactive(st.tables, st.sessions, r);
    }
  }

  lemma ShowsBillWhenCleaned(st: State, t: nat, s: nat)
    requires Sound(st) && ShowsBill(st, s)
    ensures ShowsBill(Apply(st, DoClean(t)), s)
  {
  }

  lemma BillOfMore(bills: seq<Bill>, bill: Bill, s: nat)
    ensures HasBill(bills + [bill], s) <==> HasBill(bills, s) || bill.session == s
  {
    assert (bills + [bill])[..|bills|] == bills;
  }

  lemma BillOfSame(bills: seq<Bill>, bills': seq<Bill>, s: nat)
    requires |bills| == |bills'| && forall b :: 0 <= b < |bills| ==> bills[b].session == bills'[b].session
    ensures HasBill(bills, s) <==> HasBill(bills', s)
  {
    var b, b' := BillOf(bills, s), BillOf(bills', s);
    if b < |bills| {
      assert bills'[b].session == s;
    }
    if b' < |bills| {
      assert bills[b'].session == s;
    }
  }

  lemma ShowsBillWhenBilled(st: State, r: nat, rate: int, s: nat)
    requires Sound(st) && ShowsBill(st, s)
    ensures ShowsBill(Apply(st, DoBill(r, rate)), s)
  {
    if GenerateBill(st, r, rate).Accepted? && !HasBill(st.bills, r) {
      var st' := GenerateBill(st, r, rate).state;
      BillOfMore(st.bills, st'.bills[|st.bills|], s);
      UnbilledIsOpen(st, r);
      if s != r && s < |st.sessions| && Active(st.sessions[s].status) {
        OthersInactive(st.tables, st.sessions, r);
        assert st.sessions[s].table != st.sessions[r].table;
      }
    }
  }

  lemma BillsStay(st: State, op: Request)
    requires !op.DoBill?
    ensures |Apply(st, op).bills| == |st.bills|
    ensures forall b :: 0 <= b < |st.bills| ==> Apply(st, op).bills[b].session == st.bills[b].session
  {
  }

  lemma ShowsBillElsewhere(st: State, op: Request, s: nat)
    requires Sound(st) && ShowsBill(st, s)
    requires !op.DoOpen? && !op.DoClose? && !op.DoClean? && !op.DoBill?
    ensures ShowsBill(Apply(st, op), s)
  {
    BillsStay(st, op);
    BillOfSame(st.bills, Apply(st, op).bills, s);
    StaysActive(st, op, s);
  }

  predicate KeepsSeat(sessions: seq<Session>, sessions': seq<Session>, s: nat) {
    && |sessions'| == |sessions|
    && (s < |sessions| ==> sessions'[s].table == sessions[s].table)
    && (s < |sessions| && Active(sessions'[s].status) ==> Active(sessions[s].status))
  }

  lemma StatusKeepsSeat(sessions: seq<Session>, r: nat, status: SessionStatus, s: nat)
    requires r < |sessions| && (Active(status) ==> Active(sessions[r].status))
    ensures KeepsSeat(sessions, WithStatus(sessions, r, status), s)
  {
  }

  lemma PayingTouchesOneSession(st: State, b: nat, p: PaymentRequest)
    requires AddPayment(st, b, p).Accepted?
    ensures var st' := AddPayment(st, b, p).state;
            && st'.tables == st.tables
            && (st'.sessions == st.sessions || st'.sessions == WithStatus(st.sessions, st.bills[b].session, Settled))
            && Active(Settled) && (st.bills[b].status == Finalized || st.bills[b].status == PartiallyPaid)
  {
  }

  lemma PayingKeepsSeats(st: State, b: nat, p: PaymentRequest, s: nat)
    requires Sound(st)
    ensures Apply(st, DoPay(b, p)).tables == st.tables
    ensures KeepsSeat(st.sessions, Apply(st, DoPay(b, p)).sessions, s)
  {
    if AddPayment(st, b, p).Accepted? {
      PayingTouchesOneSession(st, b, p);
      SessionOfBill(st, b);
      StatusKeepsSeat(st.sessions, st.bills[b].session, Settled, s);
    }
  }

  lemma RefundingKeepsSeats(st: State, b: nat, s: nat)
    requires Sound(st)
    ensures Apply(st, DoRefund(b)).tables == st.tables
    ensures KeepsSeat(st.sessions, Apply(st, DoRefund(b)).sessions, s)
  {
    if RefundBill(st, b).Accepted? {
      SessionOfBill(st, b);
      StatusKeepsSeat(st.sessions, st.bills[b].session, SessionRefunded, s);
    }
  }

  lemma StaysActive(st: State, op: Request, s: nat)
    requires Sound(st) && !op.DoOpen? && !op.DoClose? && !op.DoClean? && !op.DoBill?
    ensures Apply(st, op).tables == st.tables && KeepsSeat(st.sessions, Apply(st, op).sessions, s)
  {
    if op.DoPay? {
      PayingKeepsSeats(st, op.bill, op.payment, s);
    } else if op.DoRefund? {
      RefundingKeepsSeats(st, op.bill, s);
    } else if !op.DoOrder? {
      SeatsUntouched(st, op);
    }
  }

  /** In every run the table of a seated party is marked billed exactly when the party has its bill. */
  lemma {:induction false} TableShowsTheBill(start: State, ops: seq<Request>, s: nat)
    requires Fresh(start)
    ensures ShowsBill(Serve(start, ops), s)
  {
    if ops != [] {
      var rest, op := ops[..|ops| - 1], ops[|ops| - 1];
      TableShowsTheBill(start, rest, s);
      EveryRunIsSound(start, rest);
      var st := Serve(start, rest);
      match op
      case DoOpen(t) => ShowsBillWhenOpened(st, t, s);
      case DoClose(r) => ShowsBillWhenClosed(st, r, s);
      case DoClean(t) => ShowsBillWhenCleaned(st, t, s);
      case DoBill(r, rate) => ShowsBillWhenBilled(st, r, rate, s);
      case _ => ShowsBillElsewhere(st, op, s);
    }
  }
}
