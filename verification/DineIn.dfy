/**
 Dine-in service: tables, dining sessions, kitchen order tickets (KOTs) with their
 items, bills and payments. Rows are only ever appended or updated, so a row is
 identified by its position. Every handler is one transaction: it is refused with
 nothing written, or accepted with its whole effect.
 */
module DineIn {
  import opened Money
  import opened Options
  import opened Ledger

  datatype TableStatus = Available | Reserved | Occupied | TableBilled | Cleaning
  datatype SessionStatus = Open | Billed | Settled | Closed | SessionRefunded
  datatype KotStatus = Draft | Sent | Acknowledged | Preparing | Ready | Served | KotCancelled
  datatype ItemStatus = Queued | InKitchen(stage: KotStatus) | Voided
  datatype BillStatus = BillOpen | Finalized | PartiallyPaid | Paid | Refunded
  datatype Adjustment = NoAdjustment | Percent | Flat

  datatype Session = Session(table: nat, status: SessionStatus)
  datatype Kot = Kot(session: nat, status: KotStatus)
  datatype Item = Item(kot: nat, lineTotal: int, status: ItemStatus)
  datatype Payment = Payment(bill: nat, mode: Mode, amount: int)
  datatype Mirror = Mirror(bill: nat, amount: int)

  /** Amounts are cents; a percentage is counted in hundredths of a percent. */
  datatype Charges = Charges(
    subtotal: int,
    discountType: Adjustment, discountValue: int, discountAmount: int,
    taxRate: int, taxAmount: int,
    tipType: Adjustment, tipValue: int, tipAmount: int,
    rounding: int, total: int)

  datatype Bill = Bill(session: nat, status: BillStatus, charges: Charges, paid: int, due: int)

  datatype State = State(
    tables: seq<TableStatus>, sessions: seq<Session>, kots: seq<Kot>, items: seq<Item>,
    bills: seq<Bill>, payments: seq<Payment>, mirrors: seq<Mirror>)

  datatype Reason = NotFound | Conflict | Unprocessable
  datatype Result = Accepted(state: State) | Refused(reason: Reason)

  // ---------- money of a bill ----------

  function PercentOf(base: real, value: real): real {
    base * value / 10000.0
  }

  function Adjusted(kind: Adjustment, base: real, value: real): real {
    match kind
    case Percent => Round(PercentOf(base, value)) as real
    case Flat => value
    case NoAdjustment => 0.0
  }

  function Discount(subtotal: int, kind: Adjustment, value: real): real {
    var d := Adjusted(kind, subtotal as real, value);
    if d > subtotal as real then subtotal as real else d
  }

  /** Totals are computed from the request's values; every column is rounded when stored. */
  function Totals(subtotal: int, discountType: Adjustment, discountValue: real, taxRate: real,
                  tipType: Adjustment, tipValue: real, rounding: real): (c: Charges)
    ensures c.subtotal == subtotal
    ensures discountValue >= 0.0 && subtotal >= 0 ==> 0 <= c.discountAmount <= subtotal
    ensures c.discountType == discountType && c.tipType == tipType
  {
    var discount := Discount(subtotal, discountType, discountValue);
    var taxable := subtotal as real - discount;
    var tax := Round(PercentOf(taxable, taxRate));
    var tip := Adjusted(tipType, taxable, tipValue);
    var total := Round(taxable + tax as real + tip + rounding);
    DiscountInRange(subtotal, discountType, discountValue);
    Charges(subtotal, discountType, Round(discountValue), Round(discount), Round(taxRate), tax,
            tipType, Round(tipValue), Round(tip), Round(rounding), total)
  }

  lemma DiscountInRange(subtotal: int, kind: Adjustment, value: real)
    ensures Discount(subtotal, kind, value) <= subtotal as real
    ensures Round(Discount(subtotal, kind, value)) <= subtotal
    ensures value >= 0.0 && subtotal >= 0 ==> Discount(subtotal, kind, value) >= 0.0
  {
    RoundWhole(subtotal);
    RoundMonotone(Discount(subtotal, kind, value), subtotal as real);
    if value >= 0.0 && subtotal >= 0 {
      assert PercentOf(subtotal as real, value) >= 0.0;
    }
  }

  /** Recomputes the stored charges of a bill for a new subtotal. */
  function Recomputed(c: Charges, subtotal: int): Charges {
    Totals(subtotal, c.discountType, c.discountValue as real, c.taxRate as real,
           c.tipType, c.tipValue as real, c.rounding as real)
  }

  // ---------- rows ----------

  function Contribution(it: Item, kots: seq<Kot>, s: nat): int {
    if it.status != Voided && it.kot < |kots| && kots[it.kot].session == s then it.lineTotal else 0
  }

  /** The sum of the session's item lines that are not voided. */
  function LiveTotal(items: seq<Item>, kots: seq<Kot>, s: nat): int {
    if items == [] then 0
    else LiveTotal(items[..|items| - 1], kots, s) + Contribution(items[|items| - 1], kots, s)
  }

  /** The position of the session's bill, or the number of bills when it has none. */
  function BillOf(bills: seq<Bill>, s: nat): (b: nat)
    ensures b <= |bills|
    ensures b < |bills| ==> bills[b].session == s
    ensures b == |bills| ==> forall j :: 0 <= j < |bills| ==> bills[j].session != s
  {
    if bills == [] then 0
    else
      var n := |bills| - 1;
      if bills[n].session == s then n
      else
        var b := BillOf(bills[..n], s);
        if b == n then n + 1 else b
  }

  predicate HasBill(bills: seq<Bill>, s: nat) {
    BillOf(bills, s) < |bills|
  }

  predicate Occupying(status: SessionStatus) {
    status == Open || status == Billed
  }

  /** The partial unique index on active sessions. */
  predicate HasActiveSession(sessions: seq<Session>, t: nat) {
    exists s :: 0 <= s < |sessions| && sessions[s].table == t && Occupying(sessions[s].status)
  }

  // ---------- handlers ----------

  function OpenSession(st: State, t: nat): Result {
    if t >= |st.tables| then Refused(NotFound)
    else if st.tables[t] != Available && st.tables[t] != Reserved then Refused(Conflict)
    else if HasActiveSession(st.sessions, t) then Refused(Conflict)
    else Accepted(st.(sessions := st.sessions + [Session(t, Open)], tables := st.tables[t := Occupied]))
  }

  function CloseSession(st: State, s: nat): Result {
    if s >= |st.sessions| then Refused(NotFound)
    else if st.sessions[s].status != Settled then Refused(Conflict)
    else
      var t := st.sessions[s].table;
      Accepted(st.(sessions := WithStatus(st.sessions, s, Closed), tables := SetTable(st.tables, t, Cleaning)))
  }

  function CleanTable(st: State, t: nat): Result {
    if t >= |st.tables| || st.tables[t] != Cleaning then Refused(Conflict)
    else Accepted(st.(tables := st.tables[t := Available]))
  }

  function WithStatus(sessions: seq<Session>, s: nat, status: SessionStatus): seq<Session> {
    if s < |sessions| then sessions[s := sessions[s].(status := status)] else sessions
  }

  function SetTable(tables: seq<TableStatus>, t: nat, status: TableStatus): seq<TableStatus> {
    if t < |tables| then tables[t := status] else tables
  }

  datatype OrderLine = OrderLine(named: bool, quantity: int, unitPrice: real, extras: real)

  function LineTotal(l: OrderLine): int {
    Round((l.unitPrice + l.extras) * l.quantity as real)
  }

  function NewItems(lines: seq<OrderLine>, kot: nat): (r: seq<Item>)
    ensures |r| == |lines|
    ensures forall i :: 0 <= i < |r| ==> r[i].kot == kot && r[i].status == Queued
  {
    if lines == [] then []
    else
      var l := lines[|lines| - 1];
      NewItems(lines[..|lines| - 1], kot) + [Item(kot, LineTotal(l), Queued)]
  }

  predicate OrderableLines(lines: seq<OrderLine>) {
    lines != [] && forall i :: 0 <= i < |lines| ==> lines[i].named && lines[i].quantity > 0
  }

  /** A late round reopens a billed session and leaves the existing bill alone. */
  function CreateKot(st: State, s: nat, lines: seq<OrderLine>): Result {
    if !OrderableLines(lines) then Refused(Unprocessable)
    else if s >= |st.sessions| then Refused(NotFound)
    else if !Occupying(st.sessions[s].status) then Refused(Conflict)
    else
      Accepted(st.(kots := st.kots + [Kot(s, Draft)],
                   items := st.items + NewItems(lines, |st.kots|),
                   sessions := WithStatus(st.sessions, s, Open)))
  }

  function SendKot(st: State, k: nat): Result {
    if k >= |st.kots| || st.kots[k].status != Draft then Refused(Conflict)
    else Accepted(st.(kots := st.kots[k := st.kots[k].(status := Sent)]))
  }

  predicate CanTransition(from: KotStatus, to: KotStatus) {
    match from
    case Draft => to == Sent || to == KotCancelled
    case Sent => to == Acknowledged || to == Preparing || to == KotCancelled
    case Acknowledged => to == Preparing || to == KotCancelled
    case Preparing => to == Ready
    case Ready => to == Served
    case Served => false
    case KotCancelled => false
  }

  predicate InKitchenStage(status: KotStatus) {
    status == Preparing || status == Ready || status == Served
  }

  function Advanced(items: seq<Item>, k: nat, to: KotStatus): (r: seq<Item>)
    ensures |r| == |items|
    ensures forall i :: 0 <= i < |items| ==>
      r[i] == if items[i].kot == k && items[i].status != Voided then items[i].(status := InKitchen(to)) else items[i]
  {
    if items == [] then []
    else
      var it := items[|items| - 1];
      Advanced(items[..|items| - 1], k, to)
      + [if it.kot == k && it.status != Voided then it.(status := InKitchen(to)) else it]
  }

  function UpdateKotStatus(st: State, k: nat, to: KotStatus): Result {
    if k >= |st.kots| then Refused(NotFound)
    else if !CanTransition(st.kots[k].status, to) then Refused(Conflict)
    else
      Accepted(st.(kots := st.kots[k := st.kots[k].(status := to)],
                   items := if InKitchenStage(to) then Advanced(st.items, k, to) else st.items))
  }

  function VoidItem(st: State, k: nat, i: nat, reasonGiven: bool): Result {
    if !reasonGiven then Refused(Unprocessable)
    else if k >= |st.kots| || i >= |st.items| || st.items[i].kot != k then Refused(NotFound)
    else if st.items[i].status == Voided then Refused(Conflict)
    else
      var s := st.kots[k].session;
      var b := BillOf(st.bills, s);
      var items := st.items[i := st.items[i].(status := Voided)];
      if b == |st.bills| then Accepted(st.(items := items))
      else if st.bills[b].status != BillOpen then Refused(Conflict)
      else
        Accepted(st.(items := items,
                     bills := st.bills[b := Recharged(st.bills[b],
                         Recomputed(st.bills[b].charges, LiveTotal(items, st.kots, s)))]))
  }

  function Recharged(bill: Bill, c: Charges): Bill {
    bill.(charges := c, due := c.total - bill.paid)
  }

  /** Asking again returns the existing bill unchanged. */
  function GenerateBill(st: State, s: nat, taxRate: int): Result {
    if s >= |st.sessions| then Refused(NotFound)
    else if st.sessions[s].status == Closed then Refused(Conflict)
    else if HasBill(st.bills, s) then Accepted(st)
    else
      var subtotal := LiveTotal(st.items, st.kots, s);
      if subtotal <= 0 then Refused(Unprocessable)
      else
        var c := Totals(subtotal, NoAdjustment, 0.0, taxRate as real, NoAdjustment, 0.0, 0.0);
        Accepted(st.(bills := st.bills + [Bill(s, BillOpen, c, 0, c.total)],
                     sessions := WithStatus(st.sessions, s, Billed),
                     tables := SetTable(st.tables, st.sessions[s].table, TableBilled)))
  }

  datatype Patch = Patch(
    discountType: Option<Adjustment>, discountValue: Option<real>, taxRate: Option<real>,
    tipType: Option<Adjustment>, tipValue: Option<real>, rounding: Option<real>)

  function Or<T>(o: Option<T>, fallback: T): T {
    if o.Some? then o.value else fallback
  }

  function UpdateBill(st: State, b: nat, p: Patch): Result {
    if b >= |st.bills| then Refused(NotFound)
    else if st.bills[b].status != BillOpen then Refused(Conflict)
    else
      var c := st.bills[b].charges;
      var rate := Or(p.taxRate, c.taxRate as real);
      var discountValue := Or(p.discountValue, c.discountValue as real);
      var tipValue := Or(p.tipValue, c.tipValue as real);
      if rate != c.taxRate as real && !(0.0 <= rate <= 10000.0) then Refused(Unprocessable)
      else if discountValue < 0.0 || tipValue < 0.0 then Refused(Unprocessable)
      else
        var c' := Totals(c.subtotal, Or(p.discountType, c.discountType), discountValue, rate,
                         Or(p.tipType, c.tipType), tipValue, Or(p.rounding, c.rounding as real));
        Accepted(st.(bills := st.bills[b := Recharged(st.bills[b], c')]))
  }

  function FinalizeBill(st: State, b: nat): Result {
    if b >= |st.bills| || st.bills[b].status != BillOpen then Refused(Conflict)
    else Accepted(st.(bills := st.bills[b := st.bills[b].(status := Finalized)]))
  }

  datatype PaymentRequest = PaymentRequest(
    mode: Mode, amount: real, tendered: Option<real>, txnReference: bool, checkedInGuest: bool)

  predicate ValidMode(mode: Mode) {
    mode != OnAccount && mode != OtherMode
  }

  predicate PaymentRefused(bill: Bill, p: PaymentRequest) {
    || (p.mode == Cash && p.tendered.Some? && p.tendered.value < p.amount)
    || ((p.mode == Card || p.mode == Upi) && !p.txnReference)
    || (p.mode != Cash && Round(bill.paid as real + p.amount) > bill.charges.total)
    || (p.mode == RoomCharge && !p.checkedInGuest)
  }

  function Credited(bill: Bill, amount: real): Bill {
    var paid := Round(bill.paid as real + amount);
    var due := bill.charges.total - paid;
    if due <= 0 then bill.(paid := paid, due := 0, status := Paid)
    else bill.(paid := paid, due := due, status := PartiallyPaid)
  }

  function AddPayment(st: State, b: nat, p: PaymentRequest): Result {
    if !ValidMode(p.mode) || p.amount <= 0.0 then Refused(Unprocessable)
    else if b >= |st.bills| then Refused(NotFound)
    else if st.bills[b].status != Finalized && st.bills[b].status != PartiallyPaid then Refused(Conflict)
    else if PaymentRefused(st.bills[b], p) then Refused(Unprocessable)
    else
      var bill := Credited(st.bills[b], p.amount);
      Accepted(st.(payments := st.payments + [Payment(b, p.mode, Round(p.amount))],
                   mirrors := if p.mode == RoomCharge then st.mirrors else st.mirrors + [Mirror(b, Round(p.amount))],
                   bills := st.bills[b := bill],
                   sessions := if bill.status ==
                       Paid then WithStatus(st.sessions, bill.session, Settled) else st.sessions))
  }

  function RefundBill(st: State, b: nat): Result {
    if b >= |st.bills| then Refused(NotFound)
    else if st.bills[b].status != Paid && st.bills[b].status != PartiallyPaid then Refused(Conflict)
    else
      var bill := st.bills[b];
      Accepted(st.(mirrors := if bill.paid > 0 then st.mirrors + [Mirror(b, -bill.paid)] else st.mirrors,
                   bills := st.bills[b := bill.(status := Refunded)],
                   sessions := WithStatus(st.sessions, bill.session, SessionRefunded)))
  }

  // ---------- runs ----------

  datatype Request =
    | DoOpen(table: nat)
    | DoClose(session: nat)
    | DoClean(table: nat)
    | DoOrder(session: nat, lines: seq<OrderLine>)
    | DoSend(kot: nat)
    | DoAdvance(kot: nat, to: KotStatus)
    | DoVoid(kot: nat, item: nat, reasonGiven: bool)
    | DoBill(session: nat, taxRate: int)
    | DoUpdate(bill: nat, patch: Patch)
    | DoFinalize(bill: nat)
    | DoPay(bill: nat, payment: PaymentRequest)
    | DoRefund(bill: nat)

  function Handle(st: State, op: Request): Result {
    match op
    case DoOpen(t) => OpenSession(st, t)
    case DoClose(s) => CloseSession(st, s)
    case DoClean(t) => CleanTable(st, t)
    case DoOrder(s, lines) => CreateKot(st, s, lines)
    case DoSend(k) => SendKot(st, k)
    case DoAdvance(k, to) => UpdateKotStatus(st, k, to)
    case DoVoid(k, i, reason) => VoidItem(st, k, i, reason)
    case DoBill(s, rate) => GenerateBill(st, s, rate)
    case DoUpdate(b, p) => UpdateBill(st, b, p)
    case DoFinalize(b) => FinalizeBill(st, b)
    case DoPay(b, p) => AddPayment(st, b, p)
    case DoRefund(b) => RefundBill(st, b)
  }

  function Apply(st: State, op: Request): State {
    var r := Handle(st, op);
    if r.Accepted? then r.state else st
  }

  function Serve(st: State, ops: seq<Request>): State {
    if ops == [] then st else Apply(Serve(st, ops[..|ops| - 1]), ops[|ops| - 1])
  }

  /** A restaurant before its first guest; tables may stand in any status. */
  predicate Fresh(st: State) {
    st.sessions == [] && st.kots == [] && st.items == [] && st.bills == [] && st.payments == [] && st.mirrors == []
  }
}
