/** A whole visit, from an open table to a clean one: nothing on the way is refused. */
module DineInVisit {
  import opened Money
  import opened DineIn
  import opened DineInInvariants
  import opened DineInTheorems
  import opened DineInCharges
  import opened DineInOrders
  import opened DineInGuards

  predicate Free(status: TableStatus) {
    status == Available || status == Reserved
  }

  /** The party s has just sat down: nothing ordered, no bill. */
  ghost predicate JustSeated(st: State, s: nat) {
    && Sound(st) && s < |st.sessions| && st.sessions[s].status == Open && !HasBill(st.bills, s)
    && LiveTotal(st.items, st.kots, s) == 0
  }

  lemma PartySitsDown(st: State, t: nat)
    requires Sound(st) && t < |st.tables| && Free(st.tables[t])
    ensures JustSeated(Apply(st, DoOpen(t)), |st.sessions|)
    ensures Apply(st, DoOpen(t)).sessions[|st.sessions|].table == t && Apply(st, DoOpen(t)).bills == st.bills
  {
    OpensExactly(st, t);
    StepIsSound(st, DoOpen(t));
    NewPartyHasNoBill(st, |st.sessions|);
    NothingForOthers(st.items, st.kots, |st.sessions|);
  }

  predicate Orderable(lines: seq<OrderLine>) {
    |lines| > 0 && forall i :: 0 <= i < |lines| ==> lines[i].named && lines[i].quantity >= 1
  }

  lemma PartyOrders(st: State, s: nat, lines: seq<OrderLine>)
    requires JustSeated(st, s) && Orderable(lines) && WholeLines(lines)
    ensures var st' := Apply(st, DoOrder(s, lines));
            && Sound(st') && s < |st'.sessions| && st'.sessions[s] == Session(st.sessions[s].table, Open)
            && st'.bills == st.bills && LiveTotal(st'.items, st'.kots, s) as real == Worth(lines)
  {
    UnsettledIsOccupying(st, s);
    OrdersExactly(st, s, lines);
    StepIsSound(st, DoOrder(s, lines));
    OrderAdds(st, s, lines, s);
    RoundIsPriced(lines, st.kots + [Kot(s, Draft)], |st.kots|, s);
  }

  /** The bill of party s as it is presented: the orders at the rate, nothing added or taken off. */
  predicate Presented(bill: Bill, s: nat, worth: real, rate: int) {
    && bill.session == s && bill.paid == 0 && bill.due == bill.charges.total
    && bill.charges.subtotal as real == worth && bill.charges.taxRate == rate
    && -5000 <= 10000 * bill.charges.taxAmount - bill.charges.subtotal * rate <= 5000
    && bill.charges.total == bill.charges.subtotal + bill.charges.taxAmount
  }

  lemma PartyIsBilled(st: State, s: nat, rate: int, worth: real)
    requires Sound(st) && s < |st.sessions| && st.sessions[s].status == Open && !HasBill(st.bills, s)
    requires LiveTotal(st.items, st.kots, s) as real == worth > 0.0
    ensures var st', b := Apply(st, DoBill(s, rate)), |st.bills|;
            && Sound(st') && |st'.bills| == b + 1
            && st'.bills[b].status == BillOpen && Presented(st'.bills[b], s, worth, rate)
            && s < |st'.sessions| && st'.sessions[s].table == st.sessions[s].table
  {
    BillsExactly(st, s, rate);
    StepIsSound(st, DoBill(s, rate));
  }

  lemma BillIsFinalized(st: State, b: nat)
    requires Sound(st) && b < |st.bills| && st.bills[b].status == BillOpen
    ensures Sound(Apply(st, DoFinalize(b)))
    ensures Apply(st, DoFinalize(b)) == st.(bills := st.bills[b := st.bills[b].(status := Finalized)])
  {
    FinalizesExactly(st, b);
    StepIsSound(st, DoFinalize(b));
  }

  /** The state in which a party that sat down, ordered and asked for its bill is to pay. */
  function Dined(st: State, t: nat, lines: seq<OrderLine>, rate: int): State {
    Apply(Apply(Apply(Apply(st, DoOpen(t)), DoOrder(|st.sessions|, lines)), DoBill(|st.sessions|, rate)),
          DoFinalize(|st.bills|))
  }

  /**
   From any sound state a party at a free table orders anything worth something, and is
   presented one finalized bill: the whole of its order lines and the tax on them.
   */
  lemma PartyDines(st: State, t: nat, lines: seq<OrderLine>, rate: int)
    requires Sound(st) && t < |st.tables| && Free(st.tables[t])
    requires Orderable(lines) && WholeLines(lines) && Worth(lines) > 0.0
    ensures var st', s, b := Dined(st, t, lines, rate), |st.sessions|, |st.bills|;
            && Sound(st') && |st'.bills| == b + 1 && s < |st'.sessions| && st'.sessions[s].table == t
            && st'.bills[b].status == Finalized && Presented(st'.bills[b], s, Worth(lines), rate)
  {
    var s, b := |st.sessions|, |st.bills|;
    var st1 := Apply(st, DoOpen(t));
    PartySitsDown(st, t);
    var st2 := Apply(st1, DoOrder(s, lines));
    PartyOrders(st1, s, lines);
    var st3 := Apply(st2, DoBill(s, rate));
    PartyIsBilled(st2, s, rate, Worth(lines));
    BillIsFinalized(st3, b);
  }

  /** The payment covers the bill and meets what its method asks for. */
  predicate Covers(p: PaymentRequest, due: int) {
    p.amount > 0.0 && Round(p.amount) >= due && MethodAllows(p, due)
  }

  lemma PartyPays(st: State, b: nat, p: PaymentRequest)
    requires Sound(st) && b < |st.bills| && Covers(p, st.bills[b].due)
    requires st.bills[b].status == Finalized || st.bills[b].status == PartiallyPaid
    ensures var st', s := Apply(st, DoPay(b, p)), st.bills[b].session;
            && Sound(st') && |st'.bills| == |st.bills| && s < |st'.sessions|
            && st'.sessions[s] == Session(st.sessions[s].table, Settled) && st'.tables == st.tables
            && st'.bills[b].status == Paid && st'.bills[b].session == s && st'.bills[b].due == 0
            && st'.bills[b].paid == st.bills[b].paid + Round(p.amount)
  {
    SessionOfBill(st, b);
    PaysExactly(st, b, p);
    StepIsSound(st, DoPay(b, p));
  }

  lemma PartyLeaves(st: State, s: nat, b: nat)
    requires Sound(st) && s < |st.sessions| && st.sessions[s].status == Settled
    requires b < |st.bills| && st.bills[b].session == s && st.bills[b].status == Paid
    ensures st.sessions[s].table < |st.tables|
    ensures var st', t := Apply(Apply(st, DoClose(s)), DoClean(st.sessions[s].table)), st.sessions[s].table;
            && st'.tables == st.tables[t := Available] && st'.sessions == st.sessions[s := Session(t, Closed)]
            && st'.bills == st.bills
  {
    ClosesExactly(st, s);
    var t := st.sessions[s].table;
    var st1 := Apply(st, DoClose(s));
    assert st1.tables == st.tables[t := Cleaning];
    assert st1.tables[t := Available] == st.tables[t := Available];
  }

  /** A covering payment, in one method, closes the visit: the bill paid, the party gone, the table free again. */
  lemma PartyPaysAndLeaves(st: State, b: nat, p: PaymentRequest)
    requires Sound(st) && b < |st.bills| && Covers(p, st.bills[b].due)
    requires st.bills[b].status == Finalized || st.bills[b].status == PartiallyPaid
    ensures st.bills[b].session < |st.sessions|
    ensures var s := st.bills[b].session;
            var t := st.sessions[s].table;
            var st' := Apply(Apply(Apply(st, DoPay(b, p)), DoClose(s)), DoClean(t));
            && t < |st.tables| && st'.tables == st.tables[t := Available]
            && s < |st'.sessions| && st'.sessions[s] == Session(t, Closed)
            && b < |st'.bills| && st'.bills[b].status == Paid && st'.bills[b].due == 0
            && st'.bills[b].paid == st.bills[b].paid + Round(p.amount)
  {
    SessionOfBill(st, b);
    PartyPays(st, b, p);
    PartyLeaves(Apply(st, DoPay(b, p)), st.bills[b].session, b);
  }
}
