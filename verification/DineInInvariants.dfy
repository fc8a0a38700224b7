/** What every run of the dine-in handlers keeps, whatever the order of the requests. */
module DineInInvariants {
  import opened Money
  import opened Ledger
  import opened DineIn

  // ---------- the invariants ----------

  predicate Active(status: SessionStatus) {
    status == Open || status == Billed || status == Settled
  }

  predicate InUse(status: TableStatus) {
    status == Occupied || status == TableBilled
  }

  /** An active session holds its table, and no table is held twice. */
  ghost predicate Seating(tables: seq<TableStatus>, sessions: seq<Session>) {
    && (forall s :: 0 <= s < |sessions| ==> sessions[s].table < |tables|)
    && (forall s :: 0 <= s < |sessions| && Active(sessions[s].status) ==> InUse(tables[sessions[s].table]))
    && (forall s, r :: 0 <= s < r < |sessions| && Active(sessions[s].status) && Active(sessions[r].status) ==>
          sessions[s].table != sessions[r].table)
  }

  /** A bill and its session move together. */
  predicate Agrees(bill: BillStatus, session: SessionStatus) {
    match bill
    case Paid => session == Settled || session == Closed
    case Refunded => session == SessionRefunded
    case _ => session == Open || session == Billed
  }

  ghost predicate Billing(sessions: seq<Session>, bills: seq<Bill>) {
    && (forall b :: 0 <= b < |bills| ==> bills[b].session < |sessions|)
    && (forall b :: 0 <= b < |bills| ==> Agrees(bills[b].status, sessions[bills[b].session].status))
    && (forall a, b :: 0 <= a < b < |bills| ==> bills[a].session != bills[b].session)
    && (forall s :: 0 <= s < |sessions| && sessions[s].status != Open ==> HasBill(bills, s))
  }

  function PaidOn(payments: seq<Payment>, b: nat, roomOnly: bool): int {
    if payments == [] then 0
    else
      var p := payments[|payments| - 1];
      PaidOn(payments[..|payments| - 1], b, roomOnly)
      + if p.bill == b && (roomOnly ==> p.mode == RoomCharge) then p.amount else 0
  }

  function MirroredOn(mirrors: seq<Mirror>, b: nat): int {
    if mirrors == [] then 0
    else
      var m := mirrors[|mirrors| - 1];
      MirroredOn(mirrors[..|mirrors| - 1], b) + if m.bill == b then m.amount else 0
  }

  /** The money of one bill. */
  predicate Reconciled(bill: Bill, recorded: int, onRoom: int, mirrored: int) {
    && bill.paid == recorded && bill.paid >= 0
    && mirrored == (if bill.status == Refunded then 0 else bill.paid) - onRoom
    && match bill.status
       case BillOpen => bill.paid == 0 && bill.due == bill.charges.total
       case Finalized => bill.paid == 0 && bill.due == bill.charges.total
       case PartiallyPaid => bill.due == bill.charges.total - bill.paid > 0
       case Paid => bill.due == 0 && bill.paid >= bill.charges.total
       case Refunded => bill.due == Max(0, bill.charges.total - bill.paid)
  }

  ghost predicate Till(bills: seq<Bill>, payments: seq<Payment>, mirrors: seq<Mirror>) {
    && (forall i :: 0 <= i < |payments| ==> payments[i].bill < |bills|)
    && (forall i :: 0 <= i < |mirrors| ==> mirrors[i].bill < |bills|)
    && forall b :: 0 <= b < |bills| ==>
         Reconciled(bills[b], PaidOn(payments, b, false), PaidOn(payments, b, true), MirroredOn(mirrors, b))
  }

  /** Items follow their ticket through the kitchen. */
  predicate Follows(item: ItemStatus, kot: KotStatus) {
    item == Voided || item == if InKitchenStage(kot) then InKitchen(kot) else Queued
  }

  ghost predicate Kitchen(sessions: nat, kots: seq<Kot>, items: seq<Item>) {
    && (forall k :: 0 <= k < |kots| ==> kots[k].session < sessions)
    && (forall i :: 0 <= i < |items| ==> items[i].kot < |kots|)
    && (forall i :: 0 <= i < |items| ==> Follows(items[i].status, kots[items[i].kot].status))
  }

  ghost predicate Sound(st: State) {
    && Seating(st.tables, st.sessions)
    && Billing(st.sessions, st.bills)
    && Till(st.bills, st.payments, st.mirrors)
    && Kitchen(|st.sessions|, st.kots, st.items)
  }

  // ---------- sessions and bills ----------

  lemma BillOfUnique(bills: seq<Bill>, b: nat)
    requires b < |bills|
    requires forall x, y :: 0 <= x < y < |bills| ==> bills[x].session != bills[y].session
    ensures BillOf(bills, bills[b].session) == b
  {
    var c := BillOf(bills, bills[b].session);
    assert c == |bills| || bills[c].session == bills[b].session;
  }

  /** Changing one session's status in step with its bill. */
  lemma BillingMoves(sessions: seq<Session>, bills: seq<Bill>, b: nat, bill: Bill, status: SessionStatus)
    requires Billing(sessions, bills) && b < |bills|
    requires bill.session == bills[b].session && Agrees(bill.status, status)
    ensures Billing(WithStatus(sessions, bill.session, status), bills[b := bill])
  {
    var sessions', bills' := WithStatus(sessions, bill.session, status), bills[b := bill];
    forall c | 0 <= c < |bills'|
      ensures Agrees(bills'[c].status, sessions'[bills'[c].session].status)
    {
      if c < b {
        assert bills[c].session != bills[b].session;
      } else if b < c {
        assert bills[b].session != bills[c].session;
      }
    }
    forall s | 0 <= s < |sessions'| && sessions'[s].status != Open
      ensures HasBill(bills', s)
    {
      if s == bill.session {
        assert bills'[b].session == s;
      } else {
        var c := BillOf(bills, s);
        assert bills'[c].session == s;
      }
    }
  }

  lemma BillingReopens(sessions: seq<Session>, bills: seq<Bill>, s: nat)
    requires Billing(sessions, bills) && s < |sessions| && Occupying(sessions[s].status)
    ensures Billing(WithStatus(sessions, s, Open), bills)
  {
  }

  lemma BillingGrows(sessions: seq<Session>, bills: seq<Bill>, t: nat)
    requires Billing(sessions, bills)
    ensures Billing(sessions + [Session(t, Open)], bills)
  {
  }

  lemma BillingAdds(sessions: seq<Session>, bills: seq<Bill>, s: nat, bill: Bill)
    requires Billing(sessions, bills) && s < |sessions| && !HasBill(bills, s)
    requires bill.session == s && bill.status == BillOpen
    ensures sessions[s].status == Open
    ensures Billing(WithStatus(sessions, s, Billed), bills + [bill])
  {
    var sessions', bills' := WithStatus(sessions, s, Billed), bills + [bill];
    assert forall c :: 0 <= c < |bills| ==> bills'[c] == bills[c] && bills[c].session != s;
    forall r | 0 <= r < |sessions'| && sessions'[r].status != Open
      ensures HasBill(bills', r)
    {
      if r == s {
        assert bills'[|bills|].session == s;
      } else {
        var c := BillOf(bills, r);
        assert bills'[c].session == r;
      }
    }
  }

  lemma SeatingStatus(tables: seq<TableStatus>, sessions: seq<Session>, s: nat, status: SessionStatus)
    requires Seating(tables, sessions) && s < |sessions|
    requires Active(status) ==> Active(sessions[s].status)
    ensures Seating(tables, WithStatus(sessions, s, status))
  {
  }

  lemma SeatingOpens(tables: seq<TableStatus>, sessions: seq<Session>, t: nat)
    requires Seating(tables, sessions) && t < |tables| && !InUse(tables[t])
    ensures Seating(tables[t := Occupied], sessions + [Session(t, Open)])
  {
  }

  lemma SeatingTable(tables: seq<TableStatus>, sessions: seq<Session>, t: nat, status: TableStatus)
    requires Seating(tables, sessions) && (t < |tables| && InUse(tables[t]) ==> InUse(status))
    ensures Seating(SetTable(tables, t, status), sessions)
  {
  }

  lemma SeatingReleases(tables: seq<TableStatus>, sessions: seq<Session>, s: nat)
    requires Seating(tables, sessions) && s < |sessions| && Active(sessions[s].status)
    ensures Seating(tables[sessions[s].table := Cleaning], WithStatus(sessions, s, Closed))
  {
    var sessions' := WithStatus(sessions, s, Closed);
    forall r | 0 <= r < |sessions'| && Active(sessions'[r].status)
      ensures sessions'[r].table != sessions[s].table
    {
      if r < s {
        assert sessions[r].table != sessions[s].table;
      } else if s < r {
        assert sessions[s].table != sessions[r].table;
      }
    }
  }

  // ---------- money ----------

  lemma {:induction false} NothingPaidYet(payments: seq<Payment>, mirrors: seq<Mirror>, b: nat)
    requires forall i :: 0 <= i < |payments| ==> payments[i].bill != b
    requires forall i :: 0 <= i < |mirrors| ==> mirrors[i].bill != b
    ensures PaidOn(payments, b, false) == 0 && PaidOn(payments, b, true) == 0 && MirroredOn(mirrors, b) == 0
  {
    if payments != [] {
      NothingPaidYet(payments[..|payments| - 1], mirrors, b);
    } else if mirrors != [] {
      NothingPaidYet(payments, mirrors[..|mirrors| - 1], b);
    }
  }

  lemma PaidOnOne(payments: seq<Payment>, p: Payment, b: nat)
    ensures PaidOn(payments + [p], b, false) == PaidOn(payments, b, false) + if p.bill == b then p.amount else 0
    ensures PaidOn(payments + [p], b, true)
         == PaidOn(payments, b, true) + if p.bill == b && p.mode == RoomCharge then p.amount else 0
  {
    assert (payments + [p])[..|payments|] == payments;
  }

  lemma MirroredOnOne(mirrors: seq<Mirror>, m: Mirror, b: nat)
    ensures MirroredOn(mirrors + [m], b) == MirroredOn(mirrors, b) + if m.bill == b then m.amount else 0
  {
    assert (mirrors + [m])[..|mirrors|] == mirrors;
  }

  lemma TillAdds(bills: seq<Bill>, payments: seq<Payment>, mirrors: seq<Mirror>, bill: Bill)
    requires Till(bills, payments, mirrors)
    requires bill.status == BillOpen && bill.paid == 0 && bill.due == bill.charges.total
    ensures Till(bills + [bill], payments, mirrors)
  {
    NothingPaidYet(payments, mirrors, |bills|);
  }

  lemma TillKeeps(bills: seq<Bill>, payments: seq<Payment>, mirrors: seq<Mirror>, b: nat, bill: Bill)
    requires Till(bills, payments, mirrors) && b < |bills|
    requires Reconciled(bill, PaidOn(payments, b, false), PaidOn(payments, b, true), MirroredOn(mirrors, b))
    ensures Till(bills[b := bill], payments, mirrors)
  {
  }

  /** Crediting a payment adds exactly the stored, rounded amount. */
  lemma CreditedAmount(bill: Bill, amount: real)
    requires bill.paid >= 0 && amount > 0.0
    ensures Credited(bill, amount).paid == bill.paid + Round(amount)
    ensures Credited(bill, amount).due == Max(0, bill.charges.total - Credited(bill, amount).paid)
    ensures Credited(bill, amount).status == if Credited(bill, amount).due == 0 then Paid else PartiallyPaid
  {
    RoundShift(amount, bill.paid);
  }

  lemma TillPays(bills: seq<Bill>, payments: seq<Payment>, mirrors: seq<Mirror>, b: nat, mode: Mode, amount: real)
    requires Till(bills, payments, mirrors) && b < |bills| && amount > 0.0
    requires bills[b].status == Finalized || bills[b].status == PartiallyPaid
    ensures var mirrors' := if mode == RoomCharge then mirrors else mirrors + [Mirror(b, Round(amount))];
            Till(bills[b := Credited(bills[b], amount)], payments + [Payment(b, mode, Round(amount))], mirrors')
  {
    var bills' := bills[b := Credited(bills[b], amount)];
    var p := Payment(b, mode, Round(amount));
    var mirrors' := if mode == RoomCharge then mirrors else mirrors + [Mirror(b, Round(amount))];
    forall c | 0 <= c < |bills'|
      ensures Reconciled(bills'[c], PaidOn(payments + [p], c, false), PaidOn(payments + [p], c, true),
                MirroredOn(mirrors', c))
    {
      assert Reconciled(bills[c], PaidOn(payments, c, false), PaidOn(payments, c, true), MirroredOn(mirrors, c));
      BillPays(bills[c], payments, mirrors, b, mode, amount, c);
    }
  }

  /** A payment on bill b, seen from bill c. */
  lemma BillPays(bill: Bill, payments: seq<Payment>, mirrors: seq<Mirror>, b: nat, mode: Mode, amount: real, c: nat)
    requires Reconciled(bill, PaidOn(payments, c, false), PaidOn(payments, c, true), MirroredOn(mirrors, c))
    requires amount > 0.0
    requires b == c ==> bill.status == Finalized || bill.status == PartiallyPaid
    ensures var p := Payment(b, mode, Round(amount));
            var mirrors' := if mode == RoomCharge then mirrors else mirrors + [Mirror(b, Round(amount))];
            Reconciled(if b == c then Credited(bill, amount) else bill,
                       PaidOn(payments + [p], c, false), PaidOn(payments + [p], c, true), MirroredOn(mirrors', c))
  {
    PaidOnOne(payments, Payment(b, mode, Round(amount)), c);
    MirroredOnOne(mirrors, Mirror(b, Round(amount)), c);
    if b == c {
      CreditedAmount(bill, amount);
    }
  }

  lemma TillRefunds(bills: seq<Bill>, payments: seq<Payment>, mirrors: seq<Mirror>, b: nat)
    requires Till(bills, payments, mirrors) && b < |bills|
    requires bills[b].status == Paid || bills[b].status == PartiallyPaid
    ensures var mirrors' := if bills[b].paid > 0 then mirrors + [Mirror(b, -bills[b].paid)] else mirrors;
            Till(bills[b := bills[b].(status := Refunded)], payments, mirrors')
  {
    var bills' := bills[b := bills[b].(status := Refunded)];
    var m := Mirror(b, -bills[b].paid);
    var mirrors' := if bills[b].paid > 0 then mirrors + [m] else mirrors;
    forall c | 0 <= c < |bills'|
      ensures Reconciled(bills'[c], PaidOn(payments, c, false), PaidOn(payments, c, true), MirroredOn(mirrors', c))
    {
      MirroredOnOne(mirrors, m, c);
      assert Reconciled(bills[c], PaidOn(payments, c, false), PaidOn(payments, c, true), MirroredOn(mirrors, c));
    }
  }

  // ---------- every step ----------

  lemma OrderIsSound(st: State, s: nat, lines: seq<OrderLine>)
    requires Sound(st) && CreateKot(st, s, lines).Accepted?
    ensures Sound(CreateKot(st, s, lines).state)
  {
    SeatingStatus(st.tables, st.sessions, s, Open);
    BillingReopens(st.sessions, st.bills, s);
    var st' := CreateKot(st, s, lines).state;
    forall i | 0 <= i < |st'.items|
      ensures st'.items[i].kot < |st'.kots| && Follows(st'.items[i].status, st'.kots[st'.items[i].kot].status)
    {
      if i < |st.items| {
        assert st'.items[i] == st.items[i];
      } else {
        assert st'.items[i] == NewItems(lines, |st.kots|)[i - |st.items|];
      }
    }
  }

  lemma VoidIsSound(st: State, k: nat, i: nat, reason: bool)
    requires Sound(st) && VoidItem(st, k, i, reason).Accepted?
    ensures Sound(VoidItem(st, k, i, reason).state)
  {
    var st' := VoidItem(st, k, i, reason).state;
    var b := BillOf(st.bills, st.kots[k].session);
    ItemsStayWell(|st.sessions|, st.kots, st.items, i);
    if b < |st.bills| {
      TillKeeps(st.bills, st.payments, st.mirrors, b, st'.bills[b]);
      BillStays(st, b, st'.bills[b]);
    }
    assert Seating(st'.tables, st'.sessions) && Billing(st'.sessions, st'.bills);
    assert Till(st'.bills, st'.payments, st'.mirrors) && Kitchen(|st'.sessions|, st'.kots, st'.items);
  }

  lemma ItemsStayWell(sessions: nat, kots: seq<Kot>, items: seq<Item>, i: nat)
    requires Kitchen(sessions, kots, items) && i < |items|
    ensures Kitchen(sessions, kots, items[i := items[i].(status := Voided)])
  {
  }

  lemma RechargeIsSound(st: State, b: nat, bill: Bill)
    requires Sound(st) && b < |st.bills| && bill.session == st.bills[b].session
    requires st.bills[b].status == BillOpen && (bill.status == BillOpen || bill.status == Finalized)
    requires bill.paid == st.bills[b].paid && bill.due == bill.charges.total - bill.paid
    ensures Sound(st.(bills := st.bills[b := bill]))
  {
    TillKeeps(st.bills, st.payments, st.mirrors, b, bill);
    BillStays(st, b, bill);
  }

  lemma BillIsSound(st: State, s: nat, rate: int)
    requires Sound(st) && GenerateBill(st, s, rate).Accepted?
    ensures Sound(GenerateBill(st, s, rate).state)
  {
    var st' := GenerateBill(st, s, rate).state;
    if !HasBill(st.bills, s) {
      var bill := st'.bills[|st.bills|];
      BillingAdds(st.sessions, st.bills, s, bill);
      TillAdds(st.bills, st.payments, st.mirrors, bill);
      SeatingStatus(st.tables, st.sessions, s, Billed);
      SeatingTable(st.tables, st'.sessions, st.sessions[s].table, TableBilled);
    }
  }

  /** A bill and its session change status together. */
  lemma BillMoves(st: State, b: nat, bill: Bill, status: SessionStatus)
    requires Sound(st) && b < |st.bills| && bill.session == st.bills[b].session
    requires st.bills[b].status != Refunded && Agrees(bill.status, status)
    requires (status == Settled ==> st.bills[b].status != Paid)
    requires status == Settled || !Active(status)
    ensures Billing(WithStatus(st.sessions, bill.session, status), st.bills[b := bill])
    ensures Seating(st.tables, WithStatus(st.sessions, bill.session, status))
    ensures |WithStatus(st.sessions, bill.session, status)| == |st.sessions|
  {
    BillingMoves(st.sessions, st.bills, b, bill, status);
    assert Agrees(st.bills[b].status, st.sessions[bill.session].status);
    SeatingStatus(st.tables, st.sessions, bill.session, status);
  }

  /** A bill changes within the statuses its session's status allows. */
  lemma BillStays(st: State, b: nat, bill: Bill)
    requires Sound(st) && b < |st.bills| && bill.session == st.bills[b].session
    requires Agrees(bill.status, st.sessions[bill.session].status)
    ensures Billing(st.sessions, st.bills[b := bill])
  {
    BillingMoves(st.sessions, st.bills, b, bill, st.sessions[bill.session].status);
    assert WithStatus(st.sessions, bill.session, st.sessions[bill.session].status) == st.sessions;
  }

  lemma PaymentIsSound(st: State, b: nat, p: PaymentRequest)
    requires Sound(st) && AddPayment(st, b, p).Accepted?
    ensures Sound(AddPayment(st, b, p).state)
  {
    var bill := Credited(st.bills[b], p.amount);
    TillPays(st.bills, st.payments, st.mirrors, b, p.mode, p.amount);
    if bill.status == Paid {
      BillMoves(st, b, bill, Settled);
    } else {
      BillStays(st, b, bill);
    }
  }

  lemma RefundKeepsTill(st: State, b: nat)
    requires Sound(st) && RefundBill(st, b).Accepted?
    ensures var st' := RefundBill(st, b).state; Till(st'.bills, st'.payments, st'.mirrors)
  {
    TillRefunds(st.bills, st.payments, st.mirrors, b);
  }

  lemma RefundKeepsSeats(st: State, b: nat)
    requires Sound(st) && RefundBill(st, b).Accepted?
    ensures var st' := RefundBill(st, b).state;
            Billing(st'.sessions, st'.bills) && Seating(st'.tables, st'.sessions) && |st'.sessions| == |st.sessions|
  {
    BillMoves(st, b, st.bills[b].(status := Refunded), SessionRefunded);
  }

  lemma RefundIsSound(st: State, b: nat)
    requires Sound(st) && RefundBill(st, b).Accepted?
    ensures Sound(RefundBill(st, b).state)
  {
    RefundKeepsTill(st, b);
    RefundKeepsSeats(st, b);
  }

  lemma CloseIsSound(st: State, s: nat)
    requires Sound(st) && CloseSession(st, s).Accepted?
    ensures Sound(CloseSession(st, s).state)
  {
    SeatingReleases(st.tables, st.sessions, s);
    var b := BillOf(st.bills, s);
    BillingMoves(st.sessions, st.bills, b, st.bills[b], Closed);
    assert st.bills[b := st.bills[b]] == st.bills;
  }

  lemma KitchenStepIsSound(st: State, op: Request)
    requires Sound(st) && Handle(st, op).Accepted? && (op.DoSend? || op.DoAdvance?)
    ensures Sound(Handle(st, op).state)
  {
    var st' := Handle(st, op).state;
    forall i | 0 <= i < |st'.items|
      ensures Follows(st'.items[i].status, st'.kots[st'.items[i].kot].status)
    {
      assert Follows(st.items[i].status, st.kots[st.items[i].kot].status);
    }
    assert Kitchen(|st'.sessions|, st'.kots, st'.items);
  }

  lemma StepIsSound(st: State, op: Request)
    requires Sound(st)
    ensures Sound(Apply(st, op))
  {
    if Handle(st, op).Accepted? {
      match op
      case DoOpen(t) =>
        SeatingOpens(st.tables, st.sessions, t);
        BillingGrows(st.sessions, st.bills, t);
      case DoClose(s) => CloseIsSound(st, s);
      case DoClean(t) => SeatingTable(st.tables, st.sessions, t, Available);
      case DoOrder(s, lines) => OrderIsSound(st, s, lines);
      case DoSend(_) => KitchenStepIsSound(st, op);
      case DoAdvance(_, _) => KitchenStepIsSound(st, op);
      case DoVoid(k, i, reason) => VoidIsSound(st, k, i, reason);
      case DoBill(s, rate) => BillIsSound(st, s, rate);
      case DoUpdate(b, p) => RechargeIsSound(st, b, UpdateBill(st, b, p).state.bills[b]);
      case DoFinalize(b) => RechargeIsSound(st, b, FinalizeBill(st, b).state.bills[b]);
      case DoPay(b, p) => PaymentIsSound(st, b, p);
      case DoRefund(b) => RefundIsSound(st, b);
    }
  }

  lemma {:induction false} EveryRunIsSound(st: State, ops: seq<Request>)
    requires Fresh(st)
    ensures Sound(Serve(st, ops))
  {
    if ops != [] {
      EveryRunIsSound(st, ops[..|ops| - 1]);
      StepIsSound(Serve(st, ops[..|ops| - 1]), ops[|ops| - 1]);
    }
  }
}
