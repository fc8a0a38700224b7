/**
 Promo codes: resolving a code against a proposed stay, and redeeming one use of it with a
 single guarded update. Amounts are cents, percentages hundredths of a percent.
 */
module Promo {
  import opened Money
  import opened Options

  datatype Promotion = Promotion(
    active: bool, usageLimit: Option<int>, used: nat,
    percentage: bool, value: int, minNights: int, minAmount: int, maxDiscount: Option<int>,
    validFrom: int, validTo: int)

  datatype Verdict =
    | Applied(discount: int)
    | Inactive | NotYetValid | Expired | LimitReached | StayTooShort | BelowMinimum

  function RawDiscount(p: Promotion, base: real): real {
    if p.percentage then base * p.value as real / 10000.0 else p.value as real
  }

  function Capped(p: Promotion, base: real): real {
    var d := RawDiscount(p, base);
    var d' := if p.maxDiscount.Some? && p.maxDiscount.value > 0 && d > p.maxDiscount.value as real
              then p.maxDiscount.value as real else d;
    if d' > base then base else d'
  }

  /** A NULL limit is read as zero, which means unlimited; nights < 0 means unknown. */
  function Resolve(p: Promotion, now: int, base: real, nights: int): Verdict {
    var limit := if p.usageLimit.Some? then p.usageLimit.value else 0;
    if !p.active then Inactive
    else if now < p.validFrom then NotYetValid
    else if now > p.validTo then Expired
    else if limit > 0 && p.used >= limit then LimitReached
    else if p.minNights > 0 && nights >= 0 && nights < p.minNights then StayTooShort
    else if p.minAmount > 0 && base < p.minAmount as real then BelowMinimum
    else Applied(Round(Capped(p, base)))
  }

  /** The update's guard; a comparison with a NULL limit is never true. */
  predicate Redeemable(p: Promotion) {
    p.active && p.usageLimit.Some? && (p.usageLimit.value == 0 || p.used < p.usageLimit.value)
  }

  class PromotionRow {
    var row: Promotion

    constructor (p: Promotion)
      ensures row == p
    {
      row := p;
    }

    /** Returns whether the update hit the row. */
    method Redeem() returns (redeemed: bool)
      modifies this
      ensures redeemed <==> Redeemable(old(row))
      ensures row == Next(old(row), TryRedeem)
    {
      redeemed := false;
      if row.active && row.usageLimit.Some? {
        if row.usageLimit.value == 0 || row.used < row.usageLimit.value {
          row := row.(used := row.used + 1);
          redeemed := true;
        }
      }
    }
  }

  // ---------- runs ----------

  /** An edit may change anything but the count of uses. */
  datatype Op = TryRedeem | SetActive(active: bool) | Edit(to: Promotion)

  function Next(p: Promotion, op: Op): Promotion {
    match op
    case TryRedeem => if Redeemable(p) then p.(used := p.used + 1) else p
    case SetActive(a) => p.(active := a)
    case Edit(to) => to.(used := p.used)
  }

  function Run(p: Promotion, ops: seq<Op>): Promotion {
    if ops == [] then p else Next(Run(p, ops[..|ops| - 1]), ops[|ops| - 1])
  }

  function Redemptions(p: Promotion, ops: seq<Op>): nat {
    if ops == [] then 0
    else
      Redemptions(p, ops[..|ops| - 1])
      + if ops[|ops| - 1].TryRedeem? && Redeemable(Run(p, ops[..|ops| - 1])) then 1 else 0
  }

  predicate NoEdits(ops: seq<Op>) {
    forall i :: 0 <= i < |ops| ==> !ops[i].Edit?
  }

  /** Every successful redemption is counted, edits or not. */
  lemma {:induction false} EveryUseIsCounted(p: Promotion, ops: seq<Op>)
    ensures Run(p, ops).used == p.used + Redemptions(p, ops)
  {
    if ops != [] {
      EveryUseIsCounted(p, ops[..|ops| - 1]);
    }
  }

  lemma {:induction false} LimitHolds(p: Promotion, ops: seq<Op>)
    requires NoEdits(ops) && p.usageLimit.Some? && p.usageLimit.value > 0 && p.used <= p.usageLimit.value
    ensures Run(p, ops).usageLimit == p.usageLimit && Run(p, ops).used <= p.usageLimit.value
  {
    if ops != [] {
      LimitHolds(p, ops[..|ops| - 1]);
    }
  }

  /** No interleaving of redemptions and activations takes a positive limit over its number. */
  lemma NeverOverRedeemed(p: Promotion, ops: seq<Op>)
    requires NoEdits(ops) && p.usageLimit.Some? && p.usageLimit.value > 0 && p.used <= p.usageLimit.value
    ensures Redemptions(p, ops) <= p.usageLimit.value - p.used
  {
    EveryUseIsCounted(p, ops);
    LimitHolds(p, ops);
  }

  /** The request takes a use, deactivates the code or edits it. */
  predicate Disturbs(p: Promotion, op: Op) {
    match op
    case TryRedeem => Redeemable(p)
    case SetActive(a) => !a
    case Edit(_) => true
  }

  ghost predicate Undisturbed(p: Promotion, ops: seq<Op>) {
    forall i :: 0 <= i < |ops| ==> !Disturbs(Run(p, ops[..i]), ops[i])
  }

  lemma {:induction false} UndisturbedStays(p: Promotion, ops: seq<Op>)
    requires p.active && Undisturbed(p, ops)
    ensures Run(p, ops) == p
  {
    if ops != [] {
      var rest := ops[..|ops| - 1];
      assert forall i :: 0 <= i < |rest| ==> rest[..i] == ops[..i];
      UndisturbedStays(p, rest);
      assert !Disturbs(Run(p, ops[..|ops| - 1]), ops[|ops| - 1]);
    }
  }

  /**
   A code that resolved is redeemed unless a redemption, an edit or a deactivation came
   between: exactly when its stored limit is there and not negative.
   */
  lemma ResolvedThenRedeemed(p: Promotion, now: int, base: real, nights: int, ops: seq<Op>)
    requires Resolve(p, now, base, nights).Applied? && Undisturbed(p, ops)
    ensures Redeemable(Run(p, ops)) <==> p.usageLimit.Some? && p.usageLimit.value >= 0
  {
    UndisturbedStays(p, ops);
  }

  /** A code stored without a limit resolves for ever and is never redeemed. */
  lemma {:induction false} NullLimitIsNeverRedeemed(p: Promotion, ops: seq<Op>)
    requires NoEdits(ops) && p.usageLimit.None?
    ensures Redemptions(p, ops) == 0 && Run(p, ops).usageLimit.None?
  {
    if ops != [] {
      NullLimitIsNeverRedeemed(p, ops[..|ops| - 1]);
    }
  }

  /** A value in hundredths of a percent of the base, or a flat amount. */
  predicate Offers(p: Promotion, base: int, amount: int) {
    if p.percentage then -5000 <= 10000 * amount - base * p.value <= 5000 else amount == p.value
  }

  lemma CastProduct(a: int, b: int)
    ensures a as real * b as real == (a * b) as real
  {
  }

  lemma RawIsOffered(p: Promotion, base: int)
    ensures Offers(p, base, Round(RawDiscount(p, base as real)))
  {
    if p.percentage {
      CastProduct(base, p.value);
      HalfACent(RawDiscount(p, base as real), base * p.value);
    } else {
      RoundWhole(p.value);
    }
  }

  lemma HalfACent(x: real, product: int)
    requires 10000.0 * x == product as real
    ensures -5000 <= 10000 * Round(x) - product <= 5000
  {
  }

  /** The smallest of what the code offers, its cap and the base, in whole cents. */
  lemma RoundedCap(p: Promotion, base: int)
    ensures var raw := Round(RawDiscount(p, base as real));
            var cap := if p.maxDiscount.Some? && p.maxDiscount.value > 0 then Min(raw, p.maxDiscount.value) else raw;
            Round(Capped(p, base as real)) == Min(cap, base)
  {
    var raw := RawDiscount(p, base as real);
    RoundWhole(base);
    RoundsBelow(raw, base);
    if p.maxDiscount.Some? && p.maxDiscount.value > 0 {
      RoundWhole(p.maxDiscount.value);
      RoundsBelow(raw, p.maxDiscount.value);
    }
  }

  lemma RoundsBelow(x: real, k: int)
    ensures x > k as real ==> Round(x) >= k
    ensures x <= k as real ==> Round(x) <= k
  {
    RoundWhole(k);
    if x > k as real {
      RoundMonotone(k as real, x);
    } else {
      RoundMonotone(x, k as real);
    }
  }

  /**
   The discount is what the code offers, percentage or flat, unless that exceeds its cap or
   the base: then it is the smaller of the two.
   */
  lemma DiscountIsTheOffer(p: Promotion, now: int, base: int, nights: int)
    requires Resolve(p, now, base as real, nights).Applied?
    ensures var d := Resolve(p, now, base as real, nights).discount;
            var capped := p.maxDiscount.Some? && p.maxDiscount.value > 0;
            || (d <= base && (capped ==> d <= p.maxDiscount.value) && Offers(p, base, d))
            || exists offer :: Offers(p, base, offer) && offer > d
                 && (d == base || (capped && d == p.maxDiscount.value <= base))
  {
    var offer := Round(RawDiscount(p, base as real));
    RawIsOffered(p, base);
    RoundedCap(p, base);
  }

  lemma OffersNothingBelowZero(p: Promotion, base: int, amount: int)
    requires base >= 0 && p.value >= 0 && Offers(p, base, amount)
    ensures amount >= 0
  {
    if p.percentage {
      assert base * p.value >= 0;
    }
  }

  /** For whole-cent amounts the discount is at least zero and at most the total and the cap. */
  lemma DiscountInBounds(p: Promotion, now: int, base: int, nights: int)
    requires base >= 0 && p.value >= 0 && Resolve(p, now, base as real, nights).Applied?
    ensures var d := Resolve(p, now, base as real, nights).discount;
            0 <= d <= base && (p.maxDiscount.Some? && p.maxDiscount.value > 0 ==> d <= p.maxDiscount.value)
  {
    RawIsOffered(p, base);
    OffersNothingBelowZero(p, base, Round(RawDiscount(p, base as real)));
    RoundedCap(p, base);
  }

  /** A code applies exactly when it is active, in its days, not used up, and the stay is long and dear enough. */
  lemma AppliesExactly(p: Promotion, now: int, base: real, nights: int)
    ensures Resolve(p, now, base, nights).Applied? <==>
              && p.active && p.validFrom <= now <= p.validTo
              && (p.usageLimit == None || p.usageLimit.value <= 0 || p.used < p.usageLimit.value)
              && (p.minNights <= 0 || nights < 0 || nights >= p.minNights)
              && (p.minAmount <= 0 || base >= p.minAmount as real)
  {
  }

  /** How often the code can still be redeemed, at most n times. */
  function Left(p: Promotion, n: nat): nat {
    if !p.active || p.usageLimit.None? || p.usageLimit.value < 0 then 0
    else if p.usageLimit.value == 0 then n
    else Min(n, Max(0, p.usageLimit.value - p.used))
  }

  lemma {:induction false} AttemptsKeepTheRow(p: Promotion, ops: seq<Op>)
    requires forall i :: 0 <= i < |ops| ==> ops[i].TryRedeem?
    ensures Run(p, ops) == p.(used := Run(p, ops).used)
  {
    if ops != [] {
      AttemptsKeepTheRow(p, ops[..|ops| - 1]);
    }
  }

  /**
   However many attempts are made on a code, exactly as many succeed as it has uses left: none
   when inactive or without a limit, all when its limit is zero.
   */
  lemma {:induction false} AttemptsAreExact(p: Promotion, ops: seq<Op>)
    requires forall i :: 0 <= i < |ops| ==> ops[i].TryRedeem?
    ensures Redemptions(p, ops) == Left(p, |ops|)
  {
    if ops != [] {
      var rest := ops[..|ops| - 1];
      AttemptsAreExact(p, rest);
      AttemptsKeepTheRow(p, rest);
      EveryUseIsCounted(p, rest);
    }
  }
}
