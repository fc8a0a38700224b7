/** What a bill charges: discount, tax, tip and total, as arithmetic on its own columns. */
module DineInCharges {
  import opened Money
  import opened Options
  import opened DineIn
  import opened DineInTheorems

  /** x is within half a cent of `value` hundredths of a percent of `base`. */
  predicate IsPercent(x: int, base: int, value: int) {
    -5000 <= 10000 * x - base * value <= 5000
  }

  /** A percentage within half a cent, a flat amount as it is, or none; and never above the subtotal. */
  predicate DiscountWell(kind: Adjustment, value: int, subtotal: int, amount: int) {
    match kind
    case NoAdjustment => amount == Min(0, subtotal)
    case Flat => amount == Min(value, subtotal)
    case Percent =>
      || (amount <= subtotal && IsPercent(amount, subtotal, value))
      || (amount == subtotal && subtotal * value + 5000 >= 10000 * subtotal)
  }

  predicate TipWell(kind: Adjustment, value: int, taxable: int, amount: int) {
    match kind
    case NoAdjustment => amount == 0
    case Flat => amount == value
    case Percent => IsPercent(amount, taxable, value)
  }

  /** The tax and the tip are charged on what is left after the discount. */
  predicate WellCharged(c: Charges) {
    var taxable := c.subtotal - c.discountAmount;
    && DiscountWell(c.discountType, c.discountValue, c.subtotal, c.discountAmount)
    && IsPercent(c.taxAmount, taxable, c.taxRate)
    && TipWell(c.tipType, c.tipValue, taxable, c.tipAmount)
    && c.total == taxable + c.taxAmount + c.tipAmount + c.rounding
  }

  lemma CastProduct(a: int, b: int)
    ensures a as real * b as real == (a * b) as real
  {
  }

  lemma RoundedPercent(base: int, value: int)
    ensures IsPercent(Round(PercentOf(base as real, value as real)), base, value)
  {
    CastProduct(base, value);
    var x := PercentOf(base as real, value as real);
    assert 10000.0 * x == (base * value) as real;
    TenThousandTimes(Round(x), x, base * value);
  }

  lemma TenThousandTimes(n: int, x: real, product: int)
    requires -0.5 <= n as real - x <= 0.5 && 10000.0 * x == product as real
    ensures -5000 <= 10000 * n - product <= 5000
  {
  }

  lemma AdjustedWell(kind: Adjustment, base: int, value: int)
    ensures var a := Adjusted(kind, base as real, value as real);
            && IsWhole(a)
            && match kind
               case NoAdjustment => a == 0.0
               case Flat => a == value as real
               case Percent => IsPercent(a.Floor, base, value)
  {
    RoundedPercent(base, value);
  }

  /** From whole values, the discount is whole and as it should be. */
  lemma DiscountIs(kind: Adjustment, subtotal: int, value: int)
    ensures var d := Discount(subtotal, kind, value as real);
            IsWhole(d) && DiscountWell(kind, value, subtotal, d.Floor)
  {
    AdjustedWell(kind, subtotal, value);
  }

  /** Charges computed from whole cents and whole hundredths of a percent. */
  lemma TotalsAreWell(subtotal: int, discountType: Adjustment, discountValue: int, taxRate: int,
                      tipType: Adjustment, tipValue: int, rounding: int)
    ensures var c := Totals(subtotal, discountType, discountValue as real, taxRate as real,
                            tipType, tipValue as real, rounding as real);
            && WellCharged(c) && c.subtotal == subtotal
            && c.discountType == discountType && c.discountValue == discountValue && c.taxRate == taxRate
            && c.tipType == tipType && c.tipValue == tipValue && c.rounding == rounding
  {
    var discount := Discount(subtotal, discountType, discountValue as real).Floor;
    var taxable := subtotal - discount;
    DiscountIs(discountType, subtotal, discountValue);
    assert subtotal as real - discount as real == taxable as real;
    RoundedPercent(taxable, taxRate);
    AdjustedWell(tipType, taxable, tipValue);
    RoundWhole(discountValue);
    RoundWhole(discount);
    RoundWhole(taxRate);
    RoundWhole(tipValue);
    RoundWhole(rounding);
    var tip := Adjusted(tipType, taxable as real, tipValue as real).Floor;
    var tax := Round(PercentOf(taxable as real, taxRate as real));
    RoundWhole(tip);
    RoundWhole(taxable + tax + tip + rounding);
  }

  /** The adjustments of the request are whole cents, its rate and percentages whole hundredths. */
  predicate WholeRequest(op: Request) {
    WholePatch(op) && (op.DoUpdate? ==> WholeValue(op.patch.taxRate))
  }

  /** An accepted patch is applied: each value given is stored, rounded, and each other one kept. */
  lemma PatchIsApplied(st: State, b: nat, p: Patch)
    requires UpdateBill(st, b, p).Accepted?
    ensures var old_, bill := st.bills[b], UpdateBill(st, b, p).state.bills[b];
            var c, c' := old_.charges, bill.charges;
            && c'.subtotal == c.subtotal
            && c'.discountType == (if p.discountType.Some? then p.discountType.value else c.discountType)
            && c'.discountValue == (if p.discountValue.Some? then Round(p.discountValue.value) else c.discountValue)
            && c'.taxRate == (if p.taxRate.Some? then Round(p.taxRate.value) else c.taxRate)
            && c'.tipType == (if p.tipType.Some? then p.tipType.value else c.tipType)
            && c'.tipValue == (if p.tipValue.Some? then Round(p.tipValue.value) else c.tipValue)
            && c'.rounding == (if p.rounding.Some? then Round(p.rounding.value) else c.rounding)
            && bill.paid == old_.paid && bill.due == c'.total - old_.paid
            && bill.status == BillOpen && bill.session == old_.session
  {
    var c := st.bills[b].charges;
    RoundWhole(c.discountValue);
    RoundWhole(c.taxRate);
    RoundWhole(c.tipValue);
    RoundWhole(c.rounding);
  }

  lemma PatchIsWell(st: State, b: nat, p: Patch)
    requires UpdateBill(st, b, p).Accepted? && WholeRequest(DoUpdate(b, p))
    ensures WellCharged(UpdateBill(st, b, p).state.bills[b].charges)
  {
    var c := st.bills[b].charges;
    var discount, rate := Or(p.discountValue, c.discountValue as real), Or(p.taxRate, c.taxRate as real);
    var tip, rounding := Or(p.tipValue, c.tipValue as real), Or(p.rounding, c.rounding as real);
    TotalsAreWell(c.subtotal, Or(p.discountType, c.discountType), discount.Floor, rate.Floor,
                  Or(p.tipType, c.tipType), tip.Floor, rounding.Floor);
  }

  lemma VoidIsWell(st: State, k: nat, i: nat, reason: bool, b: nat)
    requires VoidItem(st, k, i, reason).Accepted? && b < |st.bills| && WellCharged(st.bills[b].charges)
    ensures WellCharged(VoidItem(st, k, i, reason).state.bills[b].charges)
  {
    var s := st.kots[k].session;
    var items := st.items[i := st.items[i].(status := Voided)];
    if BillOf(st.bills, s) == b {
      var c := st.bills[b].charges;
      TotalsAreWell(LiveTotal(items, st.kots, s), c.discountType, c.discountValue, c.taxRate,
                    c.tipType, c.tipValue, c.rounding);
    }
  }

  lemma BillIsWell(st: State, s: nat, rate: int)
    requires GenerateBill(st, s, rate).Accepted? && !HasBill(st.bills, s)
    ensures WellCharged(GenerateBill(st, s, rate).state.bills[|st.bills|].charges)
  {
    TotalsAreWell(LiveTotal(st.items, st.kots, s), NoAdjustment, 0, rate, NoAdjustment, 0, 0);
  }

  /** No other request touches a charge. */
  lemma OthersLeaveCharges(st: State, op: Request, b: nat)
    requires !op.DoUpdate? && !op.DoVoid? && b < |Apply(st, op).bills| && (op.DoBill? ==> b < |st.bills|)
    ensures b < |st.bills| && Apply(st, op).bills[b].charges == st.bills[b].charges
  {
  }

  lemma WellChargedStep(st: State, op: Request, b: nat)
    requires WholeRequest(op) && b < |Apply(st, op).bills| && (b < |st.bills| ==> WellCharged(st.bills[b].charges))
    ensures WellCharged(Apply(st, op).bills[b].charges)
  {
    if op.DoUpdate? {
      if Handle(st, op).Accepted? && op.bill == b {
        PatchIsWell(st, b, op.patch);
      }
    } else if op.DoVoid? {
      if Handle(st, op).Accepted? {
        VoidIsWell(st, op.kot, op.item, op.reasonGiven, b);
      }
    } else if op.DoBill? && b >= |st.bills| {
      BillIsWell(st, op.session, op.taxRate);
    } else {
      OthersLeaveCharges(st, op, b);
    }
  }

  /**
   In every run with whole adjustments, on every bill: the discount is the percentage of the
   subtotal to half a cent, or the flat amount, and at most the subtotal; the tax is the rate on
   what is left, and the tip too, to half a cent; and the total is their sum.
   */
  lemma {:induction false} EveryBillIsWellCharged(start: State, ops: seq<Request>, b: nat)
    requires Fresh(start) && forall i :: 0 <= i < |ops| ==> WholeRequest(ops[i])
    requires b < |Serve(start, ops).bills|
    ensures WellCharged(Serve(start, ops).bills[b].charges)
  {
    if ops != [] {
      var rest := ops[..|ops| - 1];
      if b < |Serve(start, rest).bills| {
        EveryBillIsWellCharged(start, rest, b);
      }
      WellChargedStep(Serve(start, rest), ops[|ops| - 1], b);
    }
  }

  // ---------- adjustments are not negative ----------

  predicate NotNegative(c: Charges) {
    c.discountValue >= 0 && c.tipValue >= 0
  }

  lemma NotNegativeStep(st: State, op: Request, b: nat)
    requires b < |Apply(st, op).bills| && (b < |st.bills| ==> NotNegative(st.bills[b].charges))
    ensures NotNegative(Apply(st, op).bills[b].charges)
  {
    if b < |st.bills| {
      RoundWhole(st.bills[b].charges.discountValue);
      RoundWhole(st.bills[b].charges.tipValue);
    }
    if !op.DoUpdate? && !op.DoVoid? && (op.DoBill? ==> b < |st.bills|) {
      OthersLeaveCharges(st, op, b);
    }
  }

  lemma {:induction false} AdjustmentsAreNotNegative(start: State, ops: seq<Request>, b: nat)
    requires Fresh(start) && b < |Serve(start, ops).bills|
    ensures NotNegative(Serve(start, ops).bills[b].charges)
  {
    if ops != [] {
      var rest := ops[..|ops| - 1];
      if b < |Serve(start, rest).bills| {
        AdjustmentsAreNotNegative(start, rest, b);
      }
      NotNegativeStep(Serve(start, rest), ops[|ops| - 1], b);
    }
  }

  /** So nothing is added to a bill in the name of a discount. */
  lemma DiscountTakesOff(c: Charges)
    requires WellCharged(c) && NotNegative(c) && c.subtotal >= 0
    ensures 0 <= c.discountAmount <= c.subtotal
  {
    if c.discountType == Percent {
      NonNegativeProduct(c.subtotal, c.discountValue);
    }
  }

  lemma NonNegativeProduct(a: nat, b: nat)
    ensures a * b >= 0
  {
  }
}
