/**
 The dine-in handlers as they run: statements that read and update the rows, in the
 order of the program, each proved to have exactly the effect the model gives it.
 */
module DineInHandlers {
  import opened Money
  import opened Options
  import opened Ledger
  import opened DineIn
  import opened DineInInvariants

  /** A refused request leaves every row as it was; an accepted one has its whole effect. */
  ghost predicate Does(before: State, expected: Result, refusal: Option<Reason>, after: State) {
    match expected
    case Accepted(st) => refusal == None && after == st
    case Refused(reason) => refusal == Some(reason) && after == before
  }

  /** Whatever a handler answers, it keeps the invariants. */
  lemma DoesKeepsSound(before: State, op: Request, refusal: Option<Reason>, after: State)
    requires Does(before, Handle(before, op), refusal, after)
    ensures after == Apply(before, op)
    ensures Sound(before) ==> Sound(after)
  {
    if Sound(before) {
      StepIsSound(before, op);
    }
  }

  lemma LastBillIs(bills: seq<Bill>, s: nat, b: nat)
    requires b < |bills| && bills[b].session == s && forall j :: b < j < |bills| ==> bills[j].session != s
    ensures BillOf(bills, s) == b
  {
    if b < |bills| - 1 {
      LastBillIs(bills[..|bills| - 1], s, b);
    }
  }

  lemma AdvancedOne(items: seq<Item>, i: nat, k: nat, to: KotStatus)
    requires i < |items|
    ensures var it := items[i];
            var moved := if it.kot == k && it.status != Voided then it.(status := InKitchen(to)) else it;
            Advanced(items[..i + 1], k, to) + items[i + 1..] == (Advanced(items[..i], k, to) + items[i..])[i := moved]
  {
    assert items[..i + 1][..i] == items[..i];
  }

  method Adjust(kind: Adjustment, base: real, value: real) returns (amount: real)
    ensures amount == Adjusted(kind, base, value)
  {
    amount := 0.0;
    if kind == Percent {
      amount := Round(PercentOf(base, value)) as real;
    } else if kind == Flat {
      amount := value;
    }
  }

  /** The derived money fields, overwritten one after the other. */
  method ComputeTotals(subtotal: int, discountType: Adjustment, discountValue: real, taxRate: real,
                       tipType: Adjustment, tipValue: real, rounding: real)
    returns (c: Charges)
    ensures c == Totals(subtotal, discountType, discountValue, taxRate, tipType, tipValue, rounding)
  {
    var discount := Adjust(discountType, subtotal as real, discountValue);
    if discount > subtotal as real {
      discount := subtotal as real;
    }
    var taxable := subtotal as real - discount;
    assert discount == Discount(subtotal, discountType, discountValue);
    var tax := Round(PercentOf(taxable, taxRate));
    var tip := Adjust(tipType, taxable, tipValue);
    var total := Round(taxable + tax as real + tip + rounding);
    c := Charges(subtotal, discountType, Round(discountValue), Round(discount), Round(taxRate), tax,
                 tipType, Round(tipValue), Round(tip), Round(rounding), total);
  }

  class Restaurant {
    var tables: seq<TableStatus>
    var sessions: seq<Session>
    var kots: seq<Kot>
    var items: seq<Item>
    var bills: seq<Bill>
    var payments: seq<Payment>
    var mirrors: seq<Mirror>

    ghost function Value(): State
      reads this
    {
      State(tables, sessions, kots, items, bills, payments, mirrors)
    }

    constructor (tables: seq<TableStatus>)
      ensures Fresh(Value()) && this.tables == tables
    {
      this.tables := tables;
      sessions, kots, items, bills, payments, mirrors := [], [], [], [], [], [];
    }

    method SetSession(s: nat, status: SessionStatus)
      modifies this`sessions
      ensures sessions == WithStatus(old(sessions), s, status)
    {
      if s < |sessions| {
        sessions := sessions[s := sessions[s].(status := status)];
      }
    }

    /** The sum of the session's item lines that are not voided. */
    method SumLiveItems(s: nat) returns (total: int)
      ensures total == LiveTotal(items, kots, s)
    {
      total := 0;
      var i := 0;
      while i < |items|
        invariant 0 <= i <= |items|
        invariant total == LiveTotal(items[..i], kots, s)
      {
        assert items[..i + 1][..i] == items[..i];
        var it := items[i];
        if it.status != Voided && it.kot < |kots| && kots[it.kot].session == s {
          total := total + it.lineTotal;
        }
        i := i + 1;
      }
      assert items[..i] == items;
    }

    /** The session's bill, or the number of bills when it has none. */
    method FindBill(s: nat) returns (b: nat)
      ensures b == BillOf(bills, s)
    {
      b := |bills|;
      var i := |bills|;
      while i > 0
        invariant 0 <= i <= |bills|
        invariant b == |bills|
        invariant forall j :: i <= j < |bills| ==> bills[j].session != s
      {
        i := i - 1;
        if bills[i].session == s {
          LastBillIs(bills, s, i);
          return i;
        }
      }
    }

    /** Moves every item of the ticket that is not voided to the ticket's stage. */
    method AdvanceItems(k: nat, to: KotStatus)
      modifies this`items
      ensures items == Advanced(old(items), k, to)
    {
      var i := 0;
      while i < |items|
        invariant 0 <= i <= |items| == |old(items)|
        invariant items == Advanced(old(items)[..i], k, to) + old(items)[i..]
      {
        var it := items[i];
        assert it == old(items)[i];
        AdvancedOne(old(items), i, k, to);
        if it.kot == k && it.status != Voided {
          items := items[i := it.(status := InKitchen(to))];
        }
        i := i + 1;
      }
      assert old(items)[..i] == old(items);
    }

    method OpenSession(t: nat) returns (refusal: Option<Reason>)
      modifies this
      ensures Does(old(Value()), DineIn.OpenSession(old(Value()), t), refusal, Value())
    {
      if t >= |tables| {
        return Some(NotFound);
      }
      if tables[t] != Available && tables[t] != Reserved {
        return Some(Conflict);
      }
      if HasActiveSession(sessions, t) {
        return Some(Conflict);
      }
      sessions := sessions + [Session(t, Open)];
      tables := tables[t := Occupied];
      refusal := None;
    }

    method CloseSession(s: nat) returns (refusal: Option<Reason>)
      modifies this
      ensures Does(old(Value()), DineIn.CloseSession(old(Value()), s), refusal, Value())
    {
      if s >= |sessions| {
        return Some(NotFound);
      }
      var t := sessions[s].table;
      if sessions[s].status != Settled {
        return Some(Conflict);
      }
      SetSession(s, Closed);
      if t < |tables| {
        tables := tables[t := Cleaning];
      }
      refusal := None;
    }

    method CleanTable(t: nat) returns (refusal: Option<Reason>)
      modifies this
      ensures Does(old(Value()), DineIn.CleanTable(old(Value()), t), refusal, Value())
    {
      if t < |tables| && tables[t] == Cleaning {
        tables := tables[t := Available];
        return None;
      }
      refusal := Some(Conflict);
    }

    method CreateKot(s: nat, lines: seq<OrderLine>) returns (refusal: Option<Reason>)
      modifies this
      ensures Does(old(Value()), DineIn.CreateKot(old(Value()), s, lines), refusal, Value())
    {
      if !OrderableLines(lines) {
        return Some(Unprocessable);
      }
      if s >= |sessions| {
        return Some(NotFound);
      }
      var status := sessions[s].status;
      if status != Open && status != Billed {
        return Some(Conflict);
      }
      var kot := |kots|;
      kots := kots + [Kot(s, Draft)];
      var i := 0;
      while i < |lines|
        invariant 0 <= i <= |lines|
        invariant items == old(items) + NewItems(lines[..i], kot)
        invariant kots == old(kots) + [Kot(s, Draft)]
        invariant unchanged(`tables, `sessions, `bills, `payments, `mirrors)
      {
        assert lines[..i + 1][..i] == lines[..i];
        items := items + [Item(kot, LineTotal(lines[i]), Queued)];
        assert NewItems(lines[..i + 1], kot) == NewItems(lines[..i], kot) + [Item(kot, LineTotal(lines[i]), Queued)];
        i := i + 1;
      }
      assert lines[..i] == lines;
      assert status == Open ==> WithStatus(sessions, s, Open) == sessions;
      if status == Billed {
        SetSession(s, Open);
      }
      refusal := None;
    }

    method SendKot(k: nat) returns (refusal: Option<Reason>)
      modifies this
      ensures Does(old(Value()), DineIn.SendKot(old(Value()), k), refusal, Value())
    {
      if k < |kots| && kots[k].status == Draft {
        kots := kots[k := kots[k].(status := Sent)];
        return None;
      }
      refusal := Some(Conflict);
    }

    method UpdateKotStatus(k: nat, to: KotStatus) returns (refusal: Option<Reason>)
      modifies this
      ensures Does(old(Value()), DineIn.UpdateKotStatus(old(Value()), k, to), refusal, Value())
    {
      if k >= |kots| {
        return Some(NotFound);
      }
      if !CanTransition(kots[k].status, to) {
        return Some(Conflict);
      }
      kots := kots[k := kots[k].(status := to)];
      if to == Preparing || to == Ready || to == Served {
        AdvanceItems(k, to);
      }
      refusal := None;
    }

    method VoidItem(k: nat, i: nat, reasonGiven: bool) returns (refusal: Option<Reason>)
      modifies this
      ensures Does(old(Value()), DineIn.VoidItem(old(Value()), k, i, reasonGiven), refusal, Value())
    {
      if !reasonGiven {
        return Some(Unprocessable);
      }
      if k >= |kots| || i >= |items| || items[i].kot != k {
        return Some(NotFound);
      }
      if items[i].status == Voided {
        return Some(Conflict);
      }
      var s := kots[k].session;
      var b := FindBill(s);
      var hasBill := b < |bills|;
      if hasBill && bills[b].status != BillOpen {
        return Some(Conflict);
      }
      items := items[i := items[i].(status := Voided)];
      if hasBill {
        var bill, c := bills[b], bills[b].charges;
        var subtotal := SumLiveItems(s);
        var c' := ComputeTotals(subtotal, c.discountType, c.discountValue as real, c.taxRate as real,
                                c.tipType, c.tipValue as real, c.rounding as real);
        bills := bills[b := bill.(charges := c', due := c'.total - bill.paid)];
      }
      refusal := None;
    }

    method GenerateBill(s: nat, taxRate: int) returns (refusal: Option<Reason>)
      modifies this
      ensures Does(old(Value()), DineIn.GenerateBill(old(Value()), s, taxRate), refusal, Value())
    {
      if s >= |sessions| {
        return Some(NotFound);
      }
      if sessions[s].status == Closed {
        return Some(Conflict);
      }
      var b := FindBill(s);
      if b < |bills| {
        return None;
      }
      var subtotal := SumLiveItems(s);
      if subtotal <= 0 {
        return Some(Unprocessable);
      }
      var t := sessions[s].table;
      var c := ComputeTotals(subtotal, NoAdjustment, 0.0, taxRate as real, NoAdjustment, 0.0, 0.0);
      bills := bills + [Bill(s, BillOpen, c, 0, c.total)];
      SetSession(s, Billed);
      if t < |tables| {
        tables := tables[t := TableBilled];
      }
      refusal := None;
    }

    method UpdateBill(b: nat, p: Patch) returns (refusal: Option<Reason>)
      modifies this
      ensures Does(old(Value()), DineIn.UpdateBill(old(Value()), b, p), refusal, Value())
    {
      if b >= |bills| {
        return Some(NotFound);
      }
      var bill := bills[b];
      if bill.status != BillOpen {
        return Some(Conflict);
      }
      var c := bill.charges;
      var discountType, discountValue := c.discountType, c.discountValue as real;
      var rate, tipType, tipValue, rounding := c.taxRate as real, c.tipType, c.tipValue as real, c.rounding as real;
      if p.discountType.Some? {
        discountType := p.discountType.value;
      }
      if p.discountValue.Some? {
        discountValue := p.discountValue.value;
      }
      if p.taxRate.Some? && p.taxRate.value != rate {
        if p.taxRate.value < 0.0 || p.taxRate.value > 10000.0 {
          return Some(Unprocessable);
        }
        rate := p.taxRate.value;
      }
      if p.tipType.Some? {
        tipType := p.tipType.value;
      }
      if p.tipValue.Some? {
        tipValue := p.tipValue.value;
      }
      if p.rounding.Some? {
        rounding := p.rounding.value;
      }
      assert discountType == Or(p.discountType, c.discountType) && discountValue ==
          Or(p.discountValue, c.discountValue as real);
      assert tipType == Or(p.tipType, c.tipType) && tipValue == Or(p.tipValue, c.tipValue as real);
      assert rate == Or(p.taxRate, c.taxRate as real) && rounding == Or(p.rounding, c.rounding as real);
      if discountValue < 0.0 || tipValue < 0.0 {
        return Some(Unprocessable);
      }
      var c' := ComputeTotals(c.subtotal, discountType, discountValue, rate, tipType, tipValue, rounding);
      bills := bills[b := bill.(charges := c', due := c'.total - bill.paid)];
      refusal := None;
    }

    method FinalizeBill(b: nat) returns (refusal: Option<Reason>)
      modifies this
      ensures Does(old(Value()), DineIn.FinalizeBill(old(Value()), b), refusal, Value())
    {
      if b < |bills| && bills[b].status == BillOpen {
        bills := bills[b := bills[b].(status := Finalized)];
        return None;
      }
      refusal := Some(Conflict);
    }

    method AddPayment(b: nat, p: PaymentRequest) returns (refusal: Option<Reason>)
      modifies this
      ensures Does(old(Value()), DineIn.AddPayment(old(Value()), b, p), refusal, Value())
    {
      if !ValidMode(p.mode) || p.amount <= 0.0 {
        return Some(Unprocessable);
      }
      if b >= |bills| {
        return Some(NotFound);
      }
      var bill := bills[b];
      if bill.status != Finalized && bill.status != PartiallyPaid {
        return Some(Conflict);
      }
      if p.mode == Cash && p.tendered.Some? && p.tendered.value < p.amount {
        return Some(Unprocessable);
      }
      if (p.mode == Card || p.mode == Upi) && !p.txnReference {
        return Some(Unprocessable);
      }
      if p.mode != Cash && Round(bill.paid as real + p.amount) > bill.charges.total {
        return Some(Unprocessable);
      }
      if p.mode == RoomCharge && !p.checkedInGuest {
        return Some(Unprocessable);
      }
      assert !PaymentRefused(bill, p);
      payments := payments + [Payment(b, p.mode, Round(p.amount))];
      if p.mode != RoomCharge {
        mirrors := mirrors + [Mirror(b, Round(p.amount))];
      }
      var paid := Round(bill.paid as real + p.amount);
      var due := bill.charges.total - paid;
      var status := PartiallyPaid;
      if due <= 0 {
        status := Paid;
        due := 0;
      }
      bills := bills[b := bill.(paid := paid, due := due, status := status)];
      assert bills[b] == Credited(bill, p.amount);
      if status == Paid {
        SetSession(bill.session, Settled);
      }
      refusal := None;
    }

    method RefundBill(b: nat) returns (refusal: Option<Reason>)
      modifies this
      ensures Does(old(Value()), DineIn.RefundBill(old(Value()), b), refusal, Value())
    {
      if b >= |bills| {
        return Some(NotFound);
      }
      var bill := bills[b];
      if bill.status != Paid && bill.status != PartiallyPaid {
        return Some(Conflict);
      }
      if bill.paid > 0 {
        mirrors := mirrors + [Mirror(b, -bill.paid)];
      }
      bills := bills[b := bill.(status := Refunded)];
      SetSession(bill.session, SessionRefunded);
      refusal := None;
    }

    /** Routes a request to its handler: its effect, and the invariants of every run kept. */
    method Dispatch(op: Request) returns (refusal: Option<Reason>)
      modifies this
      ensures Does(old(Value()), Handle(old(Value()), op), refusal, Value())
      ensures Value() == Apply(old(Value()), op)
      ensures Sound(old(Value())) ==> Sound(Value())
    {
      match op {
        case DoOpen(t) => refusal := OpenSession(t);
        case DoClose(s) => refusal := CloseSession(s);
        case DoClean(t) => refusal := CleanTable(t);
        case DoOrder(s, lines) => refusal := CreateKot(s, lines);
        case DoSend(k) => refusal := SendKot(k);
        case DoAdvance(k, to) => refusal := UpdateKotStatus(k, to);
        case DoVoid(k, i, reason) => refusal := VoidItem(k, i, reason);
        case DoBill(s, rate) => refusal := GenerateBill(s, rate);
        case DoUpdate(b, p) => refusal := UpdateBill(b, p);
        case DoFinalize(b) => refusal := FinalizeBill(b);
        case DoPay(b, p) => refusal := AddPayment(b, p);
        case DoRefund(b) => refusal := RefundBill(b);
      }
      DoesKeepsSound(old(Value()), op, refusal, Value());
    }

    /** A day of requests, one after the other. */
    method ServeAll(ops: seq<Request>)
      modifies this
      ensures Value() == Serve(old(Value()), ops)
      ensures Sound(old(Value())) ==> Sound(Value())
    {
      var i := 0;
      while i < |ops|
        invariant 0 <= i <= |ops|
        invariant Value() == Serve(old(Value()), ops[..i])
        invariant Sound(old(Value())) ==> Sound(Value())
      {
        assert ops[..i + 1][..i] == ops[..i];
        var _ := Dispatch(ops[i]);
        i := i + 1;
      }
      assert ops[..i] == ops;
    }
  }
}
