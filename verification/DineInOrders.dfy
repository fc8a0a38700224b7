/** From the order pad to the bill: what a session's rounds are worth, line by line. */
module DineInOrders {
  import opened Money
  import opened DineIn
  import opened DineInInvariants
  import opened DineInTheorems

  predicate WholeLine(l: OrderLine) {
    IsWhole(l.unitPrice) && IsWhole(l.extras)
  }

  predicate WholeLines(lines: seq<OrderLine>) {
    forall i :: 0 <= i < |lines| ==> WholeLine(lines[i])
  }

  /** Quantity times the price with its modifiers. */
  function LineWorth(l: OrderLine): real {
    l.quantity as real * (l.unitPrice + l.extras)
  }

  function Worth(lines: seq<OrderLine>): real {
    if lines == [] then 0.0 else Worth(lines[..|lines| - 1]) + LineWorth(lines[|lines| - 1])
  }

  /** Within half a cent for each line; exact for whole cents. */
  predicate Priced(cents: int, worth: real, lines: nat, whole: bool) {
    && -(lines as real) <= 2.0 * (cents as real - worth) <= lines as real
    && (whole ==> cents as real == worth)
  }

  lemma CastProduct(a: int, b: int)
    ensures a as real * b as real == (a * b) as real
  {
  }

  lemma WholeProduct(quantity: int, price: real, x: real)
    requires IsWhole(price) && x == quantity as real * price
    ensures IsWhole(x)
  {
    CastProduct(quantity, price.Floor);
    var n := quantity * price.Floor;
    assert x == n as real;
  }

  lemma WholeSum(x: real, y: real)
    requires IsWhole(x) && IsWhole(y)
    ensures IsWhole(x + y)
  {
    assert x + y == (x.Floor + y.Floor) as real;
  }

  lemma RoundIsNear(x: real, whole: bool)
    requires whole ==> IsWhole(x)
    ensures Priced(Round(x), x, 1, whole)
  {
    RoundWhole(x.Floor);
  }

  lemma Commutes(x: real, y: real)
    ensures x * y == y * x
  {
  }

  lemma WholeLineWorth(l: OrderLine)
    requires WholeLine(l)
    ensures IsWhole(LineWorth(l))
  {
    WholeSum(l.unitPrice, l.extras);
    var x, price := LineWorth(l), l.unitPrice + l.extras;
    WholeProduct(l.quantity, price, x);
  }

  lemma LineIsPriced(l: OrderLine)
    ensures Priced(LineTotal(l), LineWorth(l), 1, WholeLine(l))
  {
    if WholeLine(l) {
      WholeLineWorth(l);
    }
    var x := LineWorth(l);
    assert LineTotal(l) == Round(x) by {
      Commutes(l.quantity as real, l.unitPrice + l.extras);
    }
    RoundIsNear(x, WholeLine(l));
  }

  lemma {:induction false} NewItemIsPriced(lines: seq<OrderLine>, kot: nat, k: nat)
    requires k < |lines|
    ensures Priced(NewItems(lines, kot)[k].lineTotal, LineWorth(lines[k]), 1, WholeLine(lines[k]))
  {
    if k < |lines| - 1 {
      NewItemIsPriced(lines[..|lines| - 1], kot, k);
    } else {
      LineIsPriced(lines[k]);
    }
  }

  /**
   An accepted order leaves one more draft ticket and one queued item for each line, in order,
   worth its quantity at the price with modifiers to half a cent, and exactly in whole cents.
   */
  lemma OrderIsPriced(st: State, s: nat, lines: seq<OrderLine>, k: nat)
    requires CreateKot(st, s, lines).Accepted? && k < |lines|
    ensures var st' := CreateKot(st, s, lines).state;
            && |st'.items| == |st.items| + |lines| && st'.items[..|st.items|] == st.items
            && st'.kots == st.kots + [Kot(s, Draft)]
            && st'.bills == st.bills && st'.payments == st.payments && st'.tables == st.tables
            && s < |st'.sessions| && st'.sessions[s].status == Open
    ensures var item, l := CreateKot(st, s, lines).state.items[|st.items| + k], lines[k];
            && item.kot == |st.kots| && item.status == Queued
            && -1.0 <= 2.0 * (item.lineTotal as real - l.quantity as real * (l.unitPrice + l.extras)) <= 1.0
            && (WholeLine(l) ==> item.lineTotal as real == l.quantity as real * (l.unitPrice + l.extras))
  {
    NewItemIsPriced(lines, |st.kots|, k);
  }

  lemma {:induction false} RoundIsPriced(lines: seq<OrderLine>, kots: seq<Kot>, kot: nat, s: nat)
    requires kot < |kots| && kots[kot].session == s
    ensures Priced(LiveTotal(NewItems(lines, kot), kots, s), Worth(lines), |lines|, WholeLines(lines))
  {
    if lines != [] {
      var n := |lines| - 1;
      RoundIsPriced(lines[..n], kots, kot, s);
      LineIsPriced(lines[n]);
      assert NewItems(lines, kot)[..n] == NewItems(lines[..n], kot);
    }
  }

  // ---------- the whole run ----------

  /** What the rounds taken for the session were worth on the order pad. */
  function OrderedOn(start: State, ops: seq<Request>, s: nat): real {
    if ops == [] then 0.0
    else
      var rest, op := ops[..|ops| - 1], ops[|ops| - 1];
      OrderedOn(start, rest, s)
      + if op.DoOrder? && op.session == s && Handle(Serve(start, rest), op).Accepted? then Worth(op.lines) else 0.0
  }

  /** How many lines they had. */
  function LinesOn(start: State, ops: seq<Request>, s: nat): nat {
    if ops == [] then 0
    else
      var rest, op := ops[..|ops| - 1], ops[|ops| - 1];
      LinesOn(start, rest, s)
      + if op.DoOrder? && op.session == s && Handle(Serve(start, rest), op).Accepted? then |op.lines| else 0
  }

  /** The request takes an item off the session. */
  predicate Voids(st: State, op: Request, s: nat) {
    op.DoVoid? && Handle(st, op).Accepted? && st.kots[op.kot].session == s
  }

  /** What was taken off the session again, item by item. */
  function VoidedOn(start: State, ops: seq<Request>, s: nat): int {
    if ops == [] then 0
    else
      var rest, op := ops[..|ops| - 1], ops[|ops| - 1];
      var st := Serve(start, rest);
      VoidedOn(start, rest, s) + if Voids(st, op, s) then st.items[op.item].lineTotal else 0
  }

  predicate WholeOrders(ops: seq<Request>) {
    forall i :: 0 <= i < |ops| && ops[i].DoOrder? ==> WholeLines(ops[i].lines)
  }

  lemma {:induction false} LiveTotalWith(items: seq<Item>, kots: seq<Kot>, s: nat, i: nat, it: Item)
    requires i < |items|
    ensures LiveTotal(items[i := it], kots, s)
         == LiveTotal(items, kots, s) - Contribution(items[i], kots, s) + Contribution(it, kots, s)
  {
    var n := |items| - 1;
    if i < n {
      LiveTotalWith(items[..n], kots, s, i, it);
      assert items[i := it][..n] == items[..n][i := it];
    } else {
      assert items[i := it][..n] == items[..n];
    }
  }

  lemma VoidTakesOff(st: State, k: nat, i: nat, reason: bool, s: nat)
    requires VoidItem(st, k, i, reason).Accepted?
    ensures var st' := VoidItem(st, k, i, reason).state;
            var removed := if st.kots[k].session == s then st.items[i].lineTotal else 0;
            LiveTotal(st'.items, st'.kots, s) == LiveTotal(st.items, st.kots, s) - removed
  {
    LiveTotalWith(st.items, st.kots, s, i, st.items[i].(status := Voided));
  }

  /** What one request adds to a session, in cents. */
  function Added(st: State, op: Request, s: nat): int {
    if op.DoOrder? && op.session == s && Handle(st, op).Accepted? then RoundTotal(st, s, op.lines)
    else if Voids(st, op, s) then -st.items[op.item].lineTotal
    else 0
  }

  lemma OthersAddNothing(st: State, op: Request)
    requires !op.DoOrder? && !op.DoVoid? && !op.DoSend? && !op.DoAdvance?
    ensures Apply(st, op).items == st.items && Apply(st, op).kots == st.kots
  {
  }

  lemma LiveTotalStep(st: State, op: Request, s: nat)
    requires Sound(st)
    ensures LiveTotal(Apply(st, op).items, Apply(st, op).kots, s) == LiveTotal(st.items, st.kots, s) + Added(st, op, s)
  {
    if op.DoOrder? {
      if Handle(st, op).Accepted? {
        OrderAdds(st, op.session, op.lines, s);
      }
    } else if op.DoVoid? {
      if Handle(st, op).Accepted? {
        VoidTakesOff(st, op.kot, op.item, op.reasonGiven, s);
      }
    } else if op.DoSend? || op.DoAdvance? {
      KitchenKeepsTotals(st, op, s);
    } else {
      OthersAddNothing(st, op);
    }
  }

  /** The order pad and the items together over one request. */
  lemma PricedStep(st: State, op: Request, s: nat, live: int, voided: int, worth: real, lines: nat, whole: bool)
    requires Priced(live + voided, worth, lines, whole) && (whole && op.DoOrder? ==> WholeLines(op.lines))
    ensures var taken := op.DoOrder? && op.session == s && Handle(st, op).Accepted?;
            Priced(live + Added(st, op, s) + voided + (if Voids(st, op, s) then st.items[op.item].lineTotal else 0),
                   worth + (if taken then Worth(op.lines) else 0.0), lines + (if taken then |op.lines| else 0), whole)
  {
    if op.DoOrder? {
      RoundIsPriced(op.lines, st.kots + [Kot(s, Draft)], |st.kots|, s);
    }
  }

  /**
   In every run, what is on a session and what was voided from it are together the rounds taken
   for it, quantity times price with modifiers: to half a cent a line, and exactly in whole cents.
   */
  lemma {:induction false} ItemsFollowTheOrders(start: State, ops: seq<Request>, s: nat, whole: bool)
    requires Fresh(start) && (whole ==> WholeOrders(ops))
    ensures var st := Serve(start, ops);
            Priced(LiveTotal(st.items, st.kots, s) + VoidedOn(start, ops, s),
                   OrderedOn(start, ops, s), LinesOn(start, ops, s), whole)
  {
    if ops != [] {
      var rest, op := ops[..|ops| - 1], ops[|ops| - 1];
      ItemsFollowTheOrders(start, rest, s, whole);
      EveryRunIsSound(start, rest);
      var st := Serve(start, rest);
      LiveTotalStep(st, op, s);
      PricedStep(st, op, s, LiveTotal(st.items, st.kots, s), VoidedOn(start, rest, s),
                 OrderedOn(start, rest, s), LinesOn(start, rest, s), whole);
    }
  }

  /** Nothing was taken off the session. */
  predicate NoVoids(start: State, ops: seq<Request>, s: nat) {
    ops == [] ||
    var rest := ops[..|ops| - 1];
    NoVoids(start, rest, s) && !Voids(Serve(start, rest), ops[|ops| - 1], s)
  }

  lemma {:induction false} NothingVoided(start: State, ops: seq<Request>, s: nat)
    requires NoVoids(start, ops, s)
    ensures VoidedOn(start, ops, s) == 0
  {
    if ops != [] {
      NothingVoided(start, ops[..|ops| - 1], s);
    }
  }

  /**
   Without late rounds the bill charges for what was ordered less what was voided; without
   voids too, and in whole cents, its subtotal is the sum of quantity times price with
   modifiers over every order line taken for the session.
   */
  lemma BillFollowsTheOrders(start: State, ops: seq<Request>, b: nat, whole: bool)
    requires Fresh(start) && NoLateOrders(start, ops) && b < |Serve(start, ops).bills|
    requires whole ==> WholeOrders(ops)
    ensures var bill := Serve(start, ops).bills[b];
            var s := bill.session;
            && Priced(bill.charges.subtotal + VoidedOn(start, ops, s),
                      OrderedOn(start, ops, s), LinesOn(start, ops, s), whole)
            && (whole && NoVoids(start, ops, s) ==> bill.charges.subtotal as real == OrderedOn(start, ops, s))
  {
    var s := Serve(start, ops).bills[b].session;
    SubtotalFollowsItems(start, ops, b);
    ItemsFollowTheOrders(start, ops, s, whole);
    if NoVoids(start, ops, s) {
      NothingVoided(start, ops, s);
    }
  }
}
