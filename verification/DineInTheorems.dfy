/** The promises of the dine-in workflow, for every run from a fresh restaurant. */
module DineInTheorems {
  import opened Money
  import opened Options
  import opened Ledger
  import opened DineIn
  import opened DineInInvariants

  /** The states some run of requests leads to from a fresh restaurant. */
  ghost predicate Reachable(st: State) {
    exists start: State, ops: seq<Request> :: Fresh(start) && Serve(start, ops) == st
  }

  lemma ReachableIsSound(st: State)
    requires Reachable(st)
    ensures Sound(st)
  {
    var start: State, ops: seq<Request> :| Fresh(start) && Serve(start, ops) == st;
    EveryRunIsSound(start, ops);
  }

  // ---------- seating and settlement ----------

  /** A table never holds two parties, and the party's table is occupied or billed. */
  lemma OnePartyPerTable(st: State, s: nat, r: nat)
    requires Reachable(st) && s < |st.sessions| && r < |st.sessions| && Active(st.sessions[s].status)
    ensures st.sessions[s].table < |st.tables| && InUse(st.tables[st.sessions[s].table])
    ensures Active(st.sessions[r].status) && st.sessions[r].table == st.sessions[s].table ==> s == r
  {
    ReachableIsSound(st);
  }

  /** A session is settled or closed exactly when its one bill is paid, in full. */
  lemma SettledMeansPaid(st: State, s: nat)
    requires Reachable(st) && s < |st.sessions|
    ensures var b := BillOf(st.bills, s);
            && (forall c :: 0 <= c < |st.bills| && st.bills[c].session == s ==> c == b)
            && ((st.sessions[s].status == Settled || st.sessions[s].status == Closed)
                <==> b < |st.bills| && st.bills[b].status == Paid)
            && (b < |st.bills| && st.bills[b].status == Paid ==> st.bills[b].paid >= st.bills[b].charges.total)
  {
    ReachableIsSound(st);
    forall c | 0 <= c < |st.bills| && st.bills[c].session == s
      ensures c == BillOf(st.bills, s)
    {
      BillOfUnique(st.bills, c);
    }
  }

  /** A table reaches cleaning only when a fully paid session on it is closed. */
  lemma CleaningFollowsFullPayment(st: State, op: Request, t: nat)
    requires Reachable(st) && t < |st.tables| && st.tables[t] != Cleaning
    requires t < |Apply(st, op).tables| && Apply(st, op).tables[t] == Cleaning
    ensures op.DoClose? && op.session < |st.sessions| && st.sessions[op.session].table == t
    ensures var b := BillOf(st.bills, op.session);
            b < |st.bills| && st.bills[b].status == Paid && st.bills[b].paid >= st.bills[b].charges.total
  {
    OnlyCloseCleans(st, op, t);
    SettledMeansPaid(st, op.session);
  }

  lemma OnlyCloseCleans(st: State, op: Request, t: nat)
    requires t < |st.tables| && st.tables[t] != Cleaning && t < |Apply(st, op).tables|
    requires Apply(st, op).tables[t] == Cleaning
    ensures op.DoClose? && op.session < |st.sessions| && st.sessions[op.session].table == t
    ensures st.sessions[op.session].status == Settled
  {
  }

  // ---------- tables in use ----------

  /** The other requests touch neither tables nor sessions. */
  predicate Seats(op: Request) {
    op.DoOpen? || op.DoClose? || op.DoClean? || op.DoOrder? || op.DoBill? || op.DoPay? || op.DoRefund?
  }

  lemma SeatsUntouched(st: State, op: Request)
    requires !Seats(op)
    ensures Apply(st, op).tables == st.tables && Apply(st, op).sessions == st.sessions
  {
  }

  /** The table is in use and nobody sits there. */
  ghost predicate Empty(tables: seq<TableStatus>, sessions: seq<Session>, t: nat) {
    && t < |tables| && InUse(tables[t])
    && forall s :: 0 <= s < |sessions| && sessions[s].table == t ==> !Active(sessions[s].status)
  }

  ghost predicate Stuck(st: State, t: nat) {
    Empty(st.tables, st.sessions, t)
  }

  /** A session that becomes active was active before, so it is at another table. */
  lemma StatusStuck(tables: seq<TableStatus>, sessions: seq<Session>, t: nat, s: nat, status: SessionStatus)
    requires Empty(tables, sessions, t) && s < |sessions| && (Active(sessions[s].status) || !Active(status))
    ensures Empty(tables, WithStatus(sessions, s, status), t)
    ensures Active(sessions[s].status) ==> sessions[s].table != t
  {
  }

  lemma TableStuck(tables: seq<TableStatus>, sessions: seq<Session>, t: nat, x: nat, status: TableStatus)
    requires Empty(tables, sessions, t) && (x != t || InUse(status))
    ensures Empty(SetTable(tables, x, status), sessions, t)
  {
  }

  lemma StuckAtTable(st: State, op: Request, t: nat)
    requires Stuck(st, t) && (op.DoOpen? || op.DoClose? || op.DoClean?)
    ensures Stuck(Apply(st, op), t)
  {
    if op.DoClose? && Handle(st, op).Accepted? {
      StatusStuck(st.tables, st.sessions, t, op.session, Closed);
      TableStuck(st.tables, WithStatus(st.sessions, op.session, Closed), t, st.sessions[op.session].table, Cleaning);
    }
  }

  lemma StuckInSession(st: State, op: Request, t: nat)
    requires Sound(st) && Stuck(st, t) && (op.DoOrder? || op.DoBill?)
    ensures Stuck(Apply(st, op), t)
  {
    if Handle(st, op).Accepted? {
      if op.DoOrder? {
        StatusStuck(st.tables, st.sessions, t, op.session, Open);
      } else if !HasBill(st.bills, op.session) {
        UnbilledIsOpen(st, op.session);
        StatusStuck(st.tables, st.sessions, t, op.session, Billed);
        TableStuck(st.tables, WithStatus(st.sessions, op.session, Billed), t, st.sessions[op.session].table,
            TableBilled);
      }
    }
  }

  lemma UnbilledIsOpen(st: State, s: nat)
    requires Sound(st) && s < |st.sessions| && !HasBill(st.bills, s)
    ensures st.sessions[s].status == Open
  {
  }

  lemma StuckAtBill(st: State, op: Request, t: nat)
    requires Sound(st) && Stuck(st, t) && (op.DoPay? || op.DoRefund?)
    ensures Stuck(Apply(st, op), t)
  {
    if Handle(st, op).Accepted? {
      var s := st.bills[op.bill].session;
      SessionOfBill(st, op.bill);
      StatusStuck(st.tables, st.sessions, t, s, if op.DoPay? then Settled else SessionRefunded);
    }
  }

  lemma SessionOfBill(st: State, b: nat)
    requires Sound(st) && b < |st.bills|
    ensures st.bills[b].session < |st.sessions|
    ensures Agrees(st.bills[b].status, st.sessions[st.bills[b].session].status)
  {
  }

  lemma StuckStep(st: State, op: Request, t: nat)
    requires Sound(st) && Stuck(st, t)
    ensures Stuck(Apply(st, op), t)
  {
    if !Seats(op) {
      SeatsUntouched(st, op);
    } else if op.DoOpen? || op.DoClose? || op.DoClean? {
      StuckAtTable(st, op, t);
    } else if op.DoOrder? || op.DoBill? {
      StuckInSession(st, op, t);
    } else {
      StuckAtBill(st, op, t);
    }
  }

  lemma {:induction false} StuckForGood(st: State, ops: seq<Request>, t: nat)
    requires Sound(st) && Stuck(st, t)
    ensures Stuck(Serve(st, ops), t) && Sound(Serve(st, ops))
  {
    if ops != [] {
      StuckForGood(st, ops[..|ops| - 1], t);
      StuckStep(Serve(st, ops[..|ops| - 1]), ops[|ops| - 1], t);
      StepIsSound(Serve(st, ops[..|ops| - 1]), ops[|ops| - 1]);
    }
  }

  /** The bill can be refunded and its party has not left. */
  predicate RefundsEarly(st: State, b: nat) {
    && b < |st.bills| && (st.bills[b].status == Paid || st.bills[b].status == PartiallyPaid)
    && st.bills[b].session < |st.sessions| && Active(st.sessions[st.bills[b].session].status)
  }

  lemma EarlyRefund(st: State, b: nat)
    requires Sound(st) && RefundsEarly(st, b)
    ensures Stuck(Apply(st, DoRefund(b)), st.sessions[st.bills[b].session].table)
  {
    var s := st.bills[b].session;
    var t := st.sessions[s].table;
    assert InUse(st.tables[t]);
    OthersInactive(st.tables, st.sessions, s);
    assert Empty(st.tables, WithStatus(st.sessions, s, SessionRefunded), t);
  }

  lemma OthersInactive(tables: seq<TableStatus>, sessions: seq<Session>, s: nat)
    requires Seating(tables, sessions) && s < |sessions| && Active(sessions[s].status)
    ensures forall r :: 0 <= r < |sessions| && r != s && sessions[r].table == sessions[s].table ==>
              !Active(sessions[r].status)
  {
  }

  /** Refunding a party before its session is closed leaves its table in use, and empty, in every run from then on. */
  lemma RefundBeforeClosingKeepsTheTable(st: State, b: nat, ops: seq<Request>)
    requires Reachable(st) && RefundsEarly(st, b)
    ensures Stuck(Serve(Apply(st, DoRefund(b)), ops), st.sessions[st.bills[b].session].table)
  {
    ReachableIsSound(st);
    EarlyRefund(st, b);
    StepIsSound(st, DoRefund(b));
    StuckForGood(Apply(st, DoRefund(b)), ops, st.sessions[st.bills[b].session].table);
  }

  // ---------- nothing else empties a table in use ----------

  /** The request refunds the party at table t before it has left. */
  predicate StrandsTable(st: State, op: Request, t: nat) {
    op.DoRefund? && RefundsEarly(st, op.bill) && st.sessions[st.bills[op.bill].session].table == t
  }

  /** Somebody sits at the table. */
  ghost predicate Seated(sessions: seq<Session>, t: nat) {
    exists s :: 0 <= s < |sessions| && sessions[s].table == t && Active(sessions[s].status)
  }

  lemma EmptyMeansNobody(tables: seq<TableStatus>, sessions: seq<Session>, t: nat)
    ensures Empty(tables, sessions, t) <==> t < |tables| && InUse(tables[t]) && !Seated(sessions, t)
  {
  }

  /** A session that is or becomes active keeps its table seated; so does any other session. */
  lemma SeatedStays(sessions: seq<Session>, t: nat, s: nat, status: SessionStatus)
    requires s < |sessions|
    ensures Active(status) && (Seated(sessions, t) || sessions[s].table == t) ==>
              Seated(WithStatus(sessions, s, status), t)
    ensures Seated(sessions, t) && (sessions[s].table != t || !Active(sessions[s].status)) ==>
              Seated(WithStatus(sessions, s, status), t)
  {
    var sessions' := WithStatus(sessions, s, status);
    if r :| 0 <= r < |sessions| && sessions[r].table == t && Active(sessions[r].status) {
      assert r != s ==> sessions'[r] == sessions[r];
    }
    assert sessions'[s].table == sessions[s].table && sessions'[s].status == status;
  }

  /** The table is free, or somebody sits there. */
  ghost predicate FreeOrSeated(st: State, t: nat) {
    t < |st.tables| && InUse(st.tables[t]) ==> Seated(st.sessions, t)
  }

  lemma SeatedAtTable(st: State, op: Request, t: nat)
    requires FreeOrSeated(st, t) && (op.DoOpen? || op.DoClose? || op.DoClean?)
    ensures FreeOrSeated(Apply(st, op), t)
  {
    if Handle(st, op).Accepted? {
      if op.DoOpen? {
        SeatedByOpening(st.sessions, t, op.table);
      } else if op.DoClose? {
        SeatedStays(st.sessions, t, op.session, Closed);
      }
    }
  }

  lemma SeatedByOpening(sessions: seq<Session>, t: nat, x: nat)
    ensures Seated(sessions, t) || x == t ==> Seated(sessions + [Session(x, Open)], t)
  {
    var sessions' := sessions + [Session(x, Open)];
    if r :| 0 <= r < |sessions| && sessions[r].table == t && Active(sessions[r].status) {
      assert sessions'[r] == sessions[r];
    }
    assert sessions'[|sessions|] == Session(x, Open);
  }

  lemma SeatedInSession(st: State, op: Request, t: nat)
    requires FreeOrSeated(st, t) && (op.DoOrder? || op.DoBill?)
    ensures FreeOrSeated(Apply(st, op), t)
  {
    if Handle(st, op).Accepted? {
      SeatedStays(st.sessions, t, op.session, if op.DoOrder? then Open else Billed);
    }
  }

  lemma SeatedAtBill(st: State, op: Request, t: nat)
    requires Sound(st) && FreeOrSeated(st, t) && (op.DoPay? || op.DoRefund?) && !StrandsTable(st, op, t)
    ensures FreeOrSeated(Apply(st, op), t)
  {
    if Handle(st, op).Accepted? {
      SessionOfBill(st, op.bill);
      SeatedStays(st.sessions, t, st.bills[op.bill].session, if op.DoPay? then Settled else SessionRefunded);
    }
  }

  lemma SeatedStep(st: State, op: Request, t: nat)
    requires Sound(st) && FreeOrSeated(st, t) && !StrandsTable(st, op, t)
    ensures FreeOrSeated(Apply(st, op), t)
  {
    if !Seats(op) {
      SeatsUntouched(st, op);
    } else if op.DoOpen? || op.DoClose? || op.DoClean? {
      SeatedAtTable(st, op, t);
    } else if op.DoOrder? || op.DoBill? {
      SeatedInSession(st, op, t);
    } else {
      SeatedAtBill(st, op, t);
    }
  }

  lemma TablesStay(st: State, op: Request)
    ensures |Apply(st, op).tables| == |st.tables|
  {
  }

  /** A request leaves a table in use and empty exactly when it was, or the request refunds its party early. */
  lemma StuckStepIsExact(st: State, op: Request, t: nat)
    requires Sound(st) && t < |st.tables|
    ensures Stuck(Apply(st, op), t) <==> Stuck(st, t) || StrandsTable(st, op, t)
  {
    EmptyMeansNobody(st.tables, st.sessions, t);
    TablesStay(st, op);
    EmptyMeansNobody(Apply(st, op).tables, Apply(st, op).sessions, t);
    if Stuck(st, t) {
      StuckStep(st, op, t);
    } else if StrandsTable(st, op, t) {
      EarlyRefund(st, op.bill);
    } else {
      SeatedStep(st, op, t);
    }
  }

  /** Some request of the run refunded the party at table t before it had left. */
  predicate Stranded(start: State, ops: seq<Request>, t: nat) {
    ops != [] &&
    var rest := ops[..|ops| - 1];
    Stranded(start, rest, t) || StrandsTable(Serve(start, rest), ops[|ops| - 1], t)
  }

  /**
   In every run a table is in use with nobody at it exactly when it was in use before the
   first guest, or a party at it was refunded before leaving; so without early refunds a
   table in use has an active session.
   */
  lemma {:induction false} StuckIsExact(start: State, ops: seq<Request>, t: nat)
    requires Fresh(start) && t < |start.tables|
    ensures |Serve(start, ops).tables| == |start.tables|
    ensures Stuck(Serve(start, ops), t) <==> InUse(start.tables[t]) || Stranded(start, ops, t)
    ensures !InUse(start.tables[t]) && !Stranded(start, ops, t) && InUse(Serve(start, ops).tables[t]) ==>
              Seated(Serve(start, ops).sessions, t)
  {
    if ops != [] {
      var rest, op := ops[..|ops| - 1], ops[|ops| - 1];
      StuckIsExact(start, rest, t);
      EveryRunIsSound(start, rest);
      TablesStay(Serve(start, rest), op);
      StuckStepIsExact(Serve(start, rest), op, t);
    }
    EmptyMeansNobody(Serve(start, ops).tables, Serve(start, ops).sessions, t);
  }

  // ---------- money ----------

  /**
   The books of a bill in every run: what it says was paid is the sum of the payments
   recorded on it, what it says is due is what is left, and the revenue rows mirror the
   payments that were not charged to a room. A refund takes back all that was paid, room
   charges included, so the mirror comes to zero exactly when nothing was charged to a room.
   */
  lemma BillBooks(st: State, b: nat)
    requires Reachable(st) && b < |st.bills|
    ensures var bill := st.bills[b];
            var onRoom, mirrored := PaidOn(st.payments, b, true), MirroredOn(st.mirrors, b);
            && bill.paid == PaidOn(st.payments, b, false) >= 0
            && ((bill.status == PartiallyPaid || bill.status == Paid || bill.status == Refunded) ==>
                  bill.due == Max(0, bill.charges.total - bill.paid))
            && (bill.status == Paid ==> bill.due == 0) && (bill.status == PartiallyPaid ==> bill.due > 0)
            && (bill.status == BillOpen || bill.status == Finalized ==>
                bill.paid == 0 && bill.due == bill.charges.total)
            && (bill.status != Refunded ==> mirrored == bill.paid - onRoom)
            && (bill.status == Refunded ==> mirrored == -onRoom && (mirrored == 0 <==> onRoom == 0))
  {
    ReachableIsSound(st);
    assert Reconciled(st.bills[b], PaidOn(st.payments, b, false), PaidOn(st.payments, b, true),
        MirroredOn(st.mirrors, b));
  }

  /** Only cash can take a bill above its total. */
  lemma NonCashNeverOverpays(st: State, b: nat, p: PaymentRequest)
    requires AddPayment(st, b, p).Accepted? && p.mode != Cash
    ensures AddPayment(st, b, p).state.bills[b].paid <= AddPayment(st, b, p).state.bills[b].charges.total
  {
  }

  function LastPayment(payments: seq<Payment>, b: nat): Option<Payment> {
    if payments == [] then None
    else if payments[|payments| - 1].bill == b then Some(payments[|payments| - 1])
    else LastPayment(payments[..|payments| - 1], b)
  }

  /** What a bill has been paid above its total, it was paid by its last payment, in cash. */
  predicate OverpaidInCash(bill: Bill, last: Option<Payment>) {
    last.Some? ==>
      && bill.status != BillOpen
      && (bill.paid > bill.charges.total ==>
            last.value.mode == Cash && bill.paid - Max(0, bill.charges.total) <= last.value.amount)
  }

  lemma {:induction false} NoPaymentYet(payments: seq<Payment>, b: nat)
    requires forall i :: 0 <= i < |payments| ==> payments[i].bill != b
    ensures LastPayment(payments, b) == None
  {
    if payments != [] {
      NoPaymentYet(payments[..|payments| - 1], b);
    }
  }

  lemma LastPaymentOne(payments: seq<Payment>, p: Payment, b: nat)
    ensures LastPayment(payments + [p], b) == if p.bill == b then Some(p) else LastPayment(payments, b)
  {
    assert (payments + [p])[..|payments|] == payments;
  }

  lemma PaymentOverpays(st: State, b: nat, p: PaymentRequest, c: nat)
    requires Sound(st) && AddPayment(st, b, p).Accepted? && c < |st.bills|
    requires OverpaidInCash(st.bills[c], LastPayment(st.payments, c))
    ensures var st' := AddPayment(st, b, p).state; OverpaidInCash(st'.bills[c], LastPayment(st'.payments, c))
  {
    LastPaymentOne(st.payments, Payment(b, p.mode, Round(p.amount)), c);
    if b == c {
      var bill := st.bills[b];
      assert Reconciled(bill, PaidOn(st.payments, b, false), PaidOn(st.payments, b, true), MirroredOn(st.mirrors, b));
      CreditedAmount(bill, p.amount);
      if p.mode != Cash {
        NonCashNeverOverpays(st, b, p);
      }
    }
  }

  lemma OverpaidStep(st: State, op: Request, b: nat)
    requires Sound(st) && b < |Apply(st, op).bills|
    requires b < |st.bills| ==> OverpaidInCash(st.bills[b], LastPayment(st.payments, b))
    ensures OverpaidInCash(Apply(st, op).bills[b], LastPayment(Apply(st, op).payments, b))
  {
    if op.DoPay? {
      if Handle(st, op).Accepted? {
        PaymentOverpays(st, op.bill, op.payment, b);
      }
    } else {
      assert Apply(st, op).payments == st.payments;
      if b >= |st.bills| {
        NoPaymentYet(st.payments, b);
      } else if LastPayment(st.payments, b).Some? {
        OtherRequests(st, op, b);
      }
    }
  }

  lemma OtherRequests(st: State, op: Request, b: nat)
    requires !op.DoPay? && b < |st.bills| && st.bills[b].status != BillOpen
    ensures var st' := Apply(st, op);
            b < |st'.bills| && st'.bills[b].status != BillOpen
            && st'.bills[b].paid == st.bills[b].paid && st'.bills[b].charges == st.bills[b].charges
  {
  }

  lemma {:induction false} EveryRunOverpaysInCash(start: State, ops: seq<Request>, b: nat)
    requires Fresh(start) && b < |Serve(start, ops).bills|
    ensures OverpaidInCash(Serve(start, ops).bills[b], LastPayment(Serve(start, ops).payments, b))
  {
    if ops != [] {
      var rest := ops[..|ops| - 1];
      var st := Serve(start, rest);
      EveryRunIsSound(start, rest);
      if b < |st.bills| {
        EveryRunOverpaysInCash(start, rest, b);
      }
      OverpaidStep(st, ops[|ops| - 1], b);
    }
  }

  /**
   In every run a bill that has payments and is paid above its total had a cash payment last,
   and that payment covers the whole excess over the total (over nothing, if the total is
   negative).
   */
  lemma OnlyCashOverpays(st: State, b: nat)
    requires Reachable(st) && b < |st.bills| && LastPayment(st.payments, b).Some?
    ensures var bill, last := st.bills[b], LastPayment(st.payments, b).value;
            bill.paid > bill.charges.total ==>
              last.mode == Cash && bill.paid - Max(0, bill.charges.total) <= last.amount
  {
    var start: State, ops: seq<Request> :| Fresh(start) && Serve(start, ops) == st;
    EveryRunOverpaysInCash(start, ops, b);
  }

  predicate Locked(bills: seq<Bill>, b: nat) {
    b < |bills| && bills[b].status != BillOpen
  }

  lemma LockedStep(st: State, op: Request, b: nat)
    requires Locked(st.bills, b)
    ensures Locked(Apply(st, op).bills, b)
    ensures Apply(st, op).bills[b].charges == st.bills[b].charges
    ensures Apply(st, op).bills[b].session == st.bills[b].session
    ensures st.bills[b].status == Refunded ==> Apply(st, op).bills[b] == st.bills[b]
  {
  }

  /** From finalizing on, no request changes any charge of the bill. */
  lemma {:induction false} ChargesAreFrozen(st: State, ops: seq<Request>, b: nat)
    requires Locked(st.bills, b)
    ensures Locked(Serve(st, ops).bills, b)
    ensures Serve(st, ops).bills[b].charges == st.bills[b].charges
    ensures st.bills[b].status == Refunded ==> Serve(st, ops).bills[b] == st.bills[b]
  {
    if ops != [] {
      ChargesAreFrozen(st, ops[..|ops| - 1], b);
      LockedStep(Serve(st, ops[..|ops| - 1]), ops[|ops| - 1], b);
    }
  }

  predicate RefundsBill(st: State, op: Request, b: nat) {
    op.DoRefund? && op.bill == b && Handle(st, op).Accepted?
  }

  function Refunds(st: State, ops: seq<Request>, b: nat): nat {
    if ops == [] then 0
    else
      Refunds(st, ops[..|ops| - 1], b)
      + if RefundsBill(Serve(st, ops[..|ops| - 1]), ops[|ops| - 1], b) then 1 else 0
  }

  lemma RefundStep(st: State, op: Request, b: nat)
    ensures b < |st.bills| && st.bills[b].status == Refunded ==>
              !RefundsBill(st, op, b) && b < |Apply(st, op).bills| && Apply(st, op).bills[b].status == Refunded
    ensures !(b < |st.bills| && st.bills[b].status == Refunded) ==>
              (b < |Apply(st, op).bills| && Apply(st, op).bills[b].status == Refunded <==> RefundsBill(st, op, b))
  {
  }

  /** No run refunds a bill twice. */
  lemma {:induction false} RefundedAtMostOnce(start: State, ops: seq<Request>, b: nat)
    requires Fresh(start)
    ensures var st := Serve(start, ops);
            Refunds(start, ops, b) == if b < |st.bills| && st.bills[b].status == Refunded then 1 else 0
  {
    if ops != [] {
      RefundedAtMostOnce(start, ops[..|ops| - 1], b);
      RefundStep(Serve(start, ops[..|ops| - 1]), ops[|ops| - 1], b);
    }
  }

  // ---------- the bill adds up ----------

  /** The printed charges miss the printed total by no more than `slack` cents. */
  predicate AddsUp(c: Charges, slack: nat) {
    var gap := c.total - (c.subtotal - c.discountAmount + c.taxAmount + c.tipAmount + c.rounding);
    gap <= slack && -gap <= slack
  }

  lemma RoundedParts(subtotal: int, discount: real, tax: int, tip: real, rounding: real)
    ensures var gap := Round(subtotal as real - discount + tax as real + tip + rounding)
                       - (subtotal - Round(discount) + tax + Round(tip) + Round(rounding));
            -2 <= gap <= 2
  {
  }

  lemma WholeParts(subtotal: int, discount: real, tax: int, tip: real, rounding: real)
    requires IsWhole(discount) && IsWhole(tip) && IsWhole(rounding)
    ensures Round(subtotal as real - discount + tax as real + tip + rounding)
         == subtotal - Round(discount) + tax + Round(tip) + Round(rounding)
  {
    RoundWhole(discount.Floor);
    RoundWhole(tip.Floor);
    RoundWhole(rounding.Floor);
    RoundWhole(subtotal - discount.Floor + tax + tip.Floor + rounding.Floor);
  }

  lemma AdjustedIsWhole(kind: Adjustment, base: real, value: real)
    requires IsWhole(value)
    ensures IsWhole(Adjusted(kind, base, value))
  {
  }

  lemma DiscountIsWhole(subtotal: int, kind: Adjustment, value: real)
    requires IsWhole(value)
    ensures IsWhole(Discount(subtotal, kind, value))
  {
    AdjustedIsWhole(kind, subtotal as real, value);
  }

  lemma PartsAddUp(c: Charges, discount: real, tip: real, rounding: real, slack: nat)
    requires c.discountAmount == Round(discount) && c.tipAmount == Round(tip) && c.rounding == Round(rounding)
    requires c.total == Round(c.subtotal as real - discount + c.taxAmount as real + tip + rounding)
    requires slack == 2 || (slack == 0 && IsWhole(discount) && IsWhole(tip) && IsWhole(rounding))
    ensures AddsUp(c, slack)
  {
    if slack == 2 {
      RoundedParts(c.subtotal, discount, c.taxAmount, tip, rounding);
    } else {
      WholeParts(c.subtotal, discount, c.taxAmount, tip, rounding);
    }
  }

  /** The charges computed for a bill, from any values and from whole-cent ones. */
  lemma TotalsAddUp(subtotal: int, discountType: Adjustment, discountValue: real, taxRate: real,
                    tipType: Adjustment, tipValue: real, rounding: real, slack: nat)
    requires slack == 2 || (slack == 0 && IsWhole(discountValue) && IsWhole(tipValue) && IsWhole(rounding))
    ensures AddsUp(Totals(subtotal, discountType, discountValue, taxRate, tipType, tipValue, rounding), slack)
  {
    var c := Totals(subtotal, discountType, discountValue, taxRate, tipType, tipValue, rounding);
    var discount := Discount(subtotal, discountType, discountValue);
    var tip := Adjusted(tipType, subtotal as real - discount, tipValue);
    if slack == 0 {
      DiscountIsWhole(subtotal, discountType, discountValue);
      AdjustedIsWhole(tipType, subtotal as real - discount, tipValue);
    }
    PartsAddUp(c, discount, tip, rounding, slack);
  }

  predicate WholeValue(o: Option<real>) {
    o.Some? ==> IsWhole(o.value)
  }

  predicate WholePatch(op: Request) {
    op.DoUpdate? ==>
      WholeValue(op.patch.discountValue) && WholeValue(op.patch.tipValue) && WholeValue(op.patch.rounding)
  }

  lemma AddsUpStep(st: State, op: Request, b: nat, slack: nat)
    requires slack == 2 || (slack == 0 && WholePatch(op))
    requires forall c :: 0 <= c < |st.bills| ==> AddsUp(st.bills[c].charges, slack)
    requires b < |Apply(st, op).bills|
    ensures AddsUp(Apply(st, op).bills[b].charges, slack)
  {
    if Handle(st, op).Accepted? {
      if op.DoVoid? {
        var s := st.kots[op.kot].session;
        var k := BillOf(st.bills, s);
        if k < |st.bills| {
          var c := st.bills[k].charges;
          var items := st.items[op.item := st.items[op.item].(status := Voided)];
          TotalsAddUp(LiveTotal(items, st.kots, s), c.discountType, c.discountValue as real, c.taxRate as real,
                      c.tipType, c.tipValue as real, c.rounding as real, slack);
        }
      } else if op.DoBill? && !HasBill(st.bills, op.session) {
        TotalsAddUp(LiveTotal(st.items, st.kots, op.session), NoAdjustment, 0.0, op.taxRate as real, NoAdjustment,
            0.0, 0.0, slack);
      } else if op.DoUpdate? {
        var c, p := st.bills[op.bill].charges, op.patch;
        TotalsAddUp(c.subtotal, Or(p.discountType, c.discountType), Or(p.discountValue, c.discountValue as real),
                    Or(p.taxRate, c.taxRate as real), Or(p.tipType, c.tipType), Or(p.tipValue, c.tipValue as real),
                    Or(p.rounding, c.rounding as real), slack);
      }
    }
  }

  /** Every bill of every run adds up to two cents, and exactly when adjustments are whole cents. */
  lemma {:induction false} EveryBillAddsUp(start: State, ops: seq<Request>, slack: nat)
    requires Fresh(start)
    requires slack == 2 || (slack == 0 && forall i :: 0 <= i < |ops| ==> WholePatch(ops[i]))
    ensures forall b :: 0 <= b < |Serve(start, ops).bills| ==> AddsUp(Serve(start, ops).bills[b].charges, slack)
  {
    if ops != [] {
      var rest := ops[..|ops| - 1];
      EveryBillAddsUp(start, rest, slack);
      var st := Serve(start, rest);
      forall b | 0 <= b < |Serve(start, ops).bills|
        ensures AddsUp(Serve(start, ops).bills[b].charges, slack)
      {
        AddsUpStep(st, ops[|ops| - 1], b, slack);
      }
    }
  }

  // ---------- the subtotal follows the items ----------

  /** By how much the items on a session exceed what its bill charges for. */
  function Gap(st: State, b: nat): int
    requires b < |st.bills|
  {
    LiveTotal(st.items, st.kots, st.bills[b].session) - st.bills[b].charges.subtotal
  }

  lemma {:induction false} LiveTotalSame(items: seq<Item>, kots: seq<Kot>, items': seq<Item>, kots': seq<Kot>, s: nat)
    requires |items| == |items'|
    requires forall i :: 0 <= i < |items| ==> Contribution(items[i], kots, s) == Contribution(items'[i], kots', s)
    ensures LiveTotal(items, kots, s) == LiveTotal(items', kots', s)
  {
    if items != [] {
      LiveTotalSame(items[..|items| - 1], kots, items'[..|items| - 1], kots', s);
    }
  }

  lemma {:induction false} LiveTotalAppend(items: seq<Item>, more: seq<Item>, kots: seq<Kot>, s: nat)
    ensures LiveTotal(items + more, kots, s) == LiveTotal(items, kots, s) + LiveTotal(more, kots, s)
  {
    if more == [] {
      assert items + more == items;
    } else {
      LiveTotalAppend(items, more[..|more| - 1], kots, s);
      assert (items + more)[..|items + more| - 1] == items + more[..|more| - 1];
    }
  }

  /** What a new round adds to a session's live total. */
  function RoundTotal(st: State, s: nat, lines: seq<OrderLine>): int {
    LiveTotal(NewItems(lines, |st.kots|), st.kots + [Kot(s, Draft)], s)
  }

  lemma OrderAdds(st: State, s: nat, lines: seq<OrderLine>, r: nat)
    requires Sound(st) && CreateKot(st, s, lines).Accepted?
    ensures var st' := CreateKot(st, s, lines).state;
            LiveTotal(st'.items, st'.kots, r) == LiveTotal(st.items, st.kots, r) + if r ==
                s then RoundTotal(st, s, lines) else 0
  {
    var kots' := st.kots + [Kot(s, Draft)];
    var added := NewItems(lines, |st.kots|);
    LiveTotalAppend(st.items, added, kots', r);
    LiveTotalSame(st.items, st.kots, st.items, kots', r);
    if r != s {
      NothingForOthers(added, kots', r);
    }
  }

  lemma {:induction false} NothingForOthers(items: seq<Item>, kots: seq<Kot>, r: nat)
    requires forall i :: 0 <= i < |items| ==> Contribution(items[i], kots, r) == 0
    ensures LiveTotal(items, kots, r) == 0
  {
    if items != [] {
      NothingForOthers(items[..|items| - 1], kots, r);
    }
  }

  /** A late round leaves its bill behind by exactly the value of the round. */
  lemma LateRound(st: State, s: nat, lines: seq<OrderLine>, b: nat)
    requires Sound(st) && CreateKot(st, s, lines).Accepted? && b < |st.bills|
    ensures Gap(CreateKot(st, s, lines).state, b) == Gap(st, b) + if st.bills[b].session ==
              s then RoundTotal(st, s, lines) else 0
  {
    OrderAdds(st, s, lines, st.bills[b].session);
  }

  lemma KitchenKeepsTotals(st: State, op: Request, s: nat)
    requires Sound(st) && (op.DoSend? || op.DoAdvance?)
    ensures LiveTotal(Apply(st, op).items, Apply(st, op).kots, s) == LiveTotal(st.items, st.kots, s)
  {
    LiveTotalSame(st.items, st.kots, Apply(st, op).items, Apply(st, op).kots, s);
  }

  /** A void brings its own session's bill up to date and leaves every other as it was. */
  lemma VoidGap(st: State, k: nat, i: nat, reason: bool, b: nat)
    requires Sound(st) && VoidItem(st, k, i, reason).Accepted? && b < |st.bills|
    ensures Gap(VoidItem(st, k, i, reason).state, b) == if st.bills[b].session ==
              st.kots[k].session then 0 else Gap(st, b)
  {
    var s := st.kots[k].session;
    if st.bills[b].session == s {
      BillOfUnique(st.bills, b);
    } else {
      var items' := st.items[i := st.items[i].(status := Voided)];
      LiveTotalSame(st.items, st.kots, items', st.kots, st.bills[b].session);
    }
  }

  lemma OthersGap(st: State, op: Request, b: nat)
    requires !op.DoOrder? && !op.DoSend? && !op.DoAdvance? && !op.DoVoid? && b < |Apply(st, op).bills|
    ensures Gap(Apply(st, op), b) == if b < |st.bills| then Gap(st, b) else 0
  {
    assert Apply(st, op).items == st.items && Apply(st, op).kots == st.kots;
  }

  /** What a request leaves of a bill's gap: a round adds to it, a void closes it. */
  function NextGap(st: State, op: Request, b: nat, gap: int): int {
    if b >= |st.bills| then 0
    else if op.DoOrder? && Handle(st, op).Accepted? && op.session == st.bills[b].session then
      gap + RoundTotal(st, op.session, op.lines)
    else if op.DoVoid? && Handle(st, op).Accepted? && st.kots[op.kot].session == st.bills[b].session then 0
    else gap
  }

  lemma GapStep(st: State, op: Request, b: nat)
    requires Sound(st) && b < |Apply(st, op).bills|
    ensures Gap(Apply(st, op), b) == NextGap(st, op, b, if b < |st.bills| then Gap(st, b) else 0)
  {
    if op.DoOrder? {
      if Handle(st, op).Accepted? {
        LateRound(st, op.session, op.lines, b);
      }
    } else if op.DoSend? || op.DoAdvance? {
      KitchenKeepsTotals(st, op, st.bills[b].session);
    } else if op.DoVoid? {
      if Handle(st, op).Accepted? {
        VoidGap(st, op.kot, op.item, op.reasonGiven, b);
      }
    } else {
      OthersGap(st, op, b);
    }
  }

  /** The rounds ordered on the bill's session since it was generated or a void last recomputed it. */
  function LateRounds(start: State, ops: seq<Request>, b: nat): int {
    if ops == [] then 0
    else
      NextGap(Serve(start, ops[..|ops| - 1]), ops[|ops| - 1], b, LateRounds(start, ops[..|ops| - 1], b))
  }

  /** In every run, what is on a session and not on its bill is exactly those rounds. */
  lemma {:induction false} GapIsLateRounds(start: State, ops: seq<Request>, b: nat)
    requires Fresh(start) && b < |Serve(start, ops).bills|
    ensures Gap(Serve(start, ops), b) == LateRounds(start, ops, b)
  {
    if ops != [] {
      var rest := ops[..|ops| - 1];
      var st := Serve(start, rest);
      EveryRunIsSound(start, rest);
      if b < |st.bills| {
        GapIsLateRounds(start, rest, b);
      }
      GapStep(st, ops[|ops| - 1], b);
    }
  }

  /** The request is a round ordered on a session that already has its bill. */
  predicate LateOrder(st: State, op: Request) {
    op.DoOrder? && HasBill(st.bills, op.session)
  }

  ghost predicate NoLateOrders(st: State, ops: seq<Request>) {
    forall i :: 0 <= i < |ops| ==> !LateOrder(Serve(st, ops[..i]), ops[i])
  }

  lemma {:induction false} NoLateRounds(start: State, ops: seq<Request>, b: nat)
    requires NoLateOrders(start, ops)
    ensures LateRounds(start, ops, b) == 0
  {
    if ops != [] {
      var rest := ops[..|ops| - 1];
      assert forall i :: 0 <= i < |rest| ==> rest[..i] == ops[..i];
      NoLateRounds(start, rest, b);
      assert !LateOrder(Serve(start, ops[..|rest|]), ops[|rest|]);
    }
  }

  /** Without late rounds, every bill's subtotal is the sum of the items still on it. */
  lemma SubtotalFollowsItems(start: State, ops: seq<Request>, b: nat)
    requires Fresh(start) && NoLateOrders(start, ops) && b < |Serve(start, ops).bills|
    ensures var st := Serve(start, ops);
            st.bills[b].charges.subtotal == LiveTotal(st.items, st.kots, st.bills[b].session)
  {
    GapIsLateRounds(start, ops, b);
    NoLateRounds(start, ops, b);
  }

  // ---------- the kitchen ----------

  function Rank(status: KotStatus): nat {
    match status
    case Draft => 0
    case Sent => 1
    case Acknowledged => 2
    case Preparing => 3
    case Ready => 4
    case Served => 5
    case KotCancelled => 6
  }

  /** A ticket only moves forward, a voided item stays voided, and neither changes owner. */
  lemma KitchenAdvances(st: State, op: Request, k: nat, i: nat)
    requires k < |st.kots| && i < |st.items|
    ensures var st' := Apply(st, op);
            && k < |st'.kots| && i < |st'.items|
            && st'.kots[k].session == st.kots[k].session && st'.items[i].kot == st.items[i].kot
            && st'.items[i].lineTotal == st.items[i].lineTotal
            && (st'.kots[k] == st.kots[k] || Rank(st.kots[k].status) < Rank(st'.kots[k].status))
            && (st.items[i].status == Voided ==> st'.items[i].status == Voided)
  {
  }

  lemma {:induction false} KitchenNeverGoesBack(st: State, ops: seq<Request>, k: nat, i: nat)
    requires k < |st.kots| && i < |st.items|
    ensures var st' := Serve(st, ops);
            && k < |st'.kots| && i < |st'.items|
            && (st'.kots[k] == st.kots[k] || Rank(st.kots[k].status) < Rank(st'.kots[k].status))
            && (st.items[i].status == Voided ==> st'.items[i].status == Voided)
  {
    if ops != [] {
      KitchenNeverGoesBack(st, ops[..|ops| - 1], k, i);
      KitchenAdvances(Serve(st, ops[..|ops| - 1]), ops[|ops| - 1], k, i);
    }
  }

  /** In every run, what is on a ticket in the kitchen is voided or at the ticket's own stage. */
  lemma ItemsFollowTheirTicket(st: State, i: nat)
    requires Reachable(st) && i < |st.items|
    ensures st.items[i].kot < |st.kots|
    ensures var kot := st.kots[st.items[i].kot];
            || st.items[i].status == Voided
            || st.items[i].status == if InKitchenStage(kot.status) then InKitchen(kot.status) else Queued
  {
    ReachableIsSound(st);
    assert Follows(st.items[i].status, st.kots[st.items[i].kot].status);
  }
}
