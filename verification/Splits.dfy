/**
 Splitting a bill between customers: the shares that are stored, and the amounts they are
 renormalised to against the bill's current total. All amounts are cents.
 */
module Splits {
  import opened Money
  import opened Options

  function Sum(s: seq<int>): int {
    if s == [] then 0 else Sum(s[..|s| - 1]) + s[|s| - 1]
  }

  lemma SumOne(s: seq<int>, x: int)
    ensures Sum(s + [x]) == Sum(s) + x
  {
    assert (s + [x])[..|s|] == s;
  }

  /** The exact proportion of the total that falls to a share. */
  function Portion(total: int, share: int, sum: int): real
    requires sum > 0
  {
    total as real * share as real / sum as real
  }

  function Allotted(total: int, share: int, sum: int): int {
    if sum > 0 then Round(Portion(total, share, sum)) else 0
  }

  /** The amounts of the first k splits, none of them the last. */
  function Leading(total: int, shares: seq<int>, sum: int, k: nat): (r: seq<int>)
    requires k <= |shares|
    ensures |r| == k
    ensures forall i :: 0 <= i < k ==> r[i] == Allotted(total, shares[i], sum)
  {
    if k == 0 then [] else Leading(total, shares, sum, k - 1) + [Allotted(total, shares[k - 1], sum)]
  }

  /** Each split gets its rounded proportion of the total; the last absorbs the remainder. */
  function Renormalized(total: int, shares: seq<int>): (r: seq<int>)
    ensures |r| == |shares|
  {
    if shares == [] then []
    else
      var lead := Leading(total, shares, Sum(shares), |shares| - 1);
      lead + [total - Sum(lead)]
  }

  method SumShares(shares: seq<int>) returns (sum: int)
    ensures sum == Sum(shares)
  {
    sum := 0;
    var j := 0;
    while j < |shares|
      invariant 0 <= j <= |shares| && sum == Sum(shares[..j])
    {
      assert shares[..j + 1][..j] == shares[..j];
      sum := sum + shares[j];
      j := j + 1;
    }
    assert shares[..j] == shares;
  }

  lemma LeadingNext(total: int, shares: seq<int>, sum: int, k: nat)
    requires k < |shares|
    ensures var next := Leading(total, shares, sum, k) + [Allotted(total, shares[k], sum)];
            Leading(total, shares, sum, k + 1) == next
            && Sum(next) == Sum(Leading(total, shares, sum, k)) + Allotted(total, shares[k], sum)
  {
    SumOne(Leading(total, shares, sum, k), Allotted(total, shares[k], sum));
  }

  /** Gives the next customer a share, and adds it to what was given. */
  method GiveNext(total: int, shares: seq<int>, sum: int, k: nat, given: int) returns (amount: int, next: int)
    requires k < |shares| && given == Sum(Leading(total, shares, sum, k))
    ensures Leading(total, shares, sum, k) + [amount] == Leading(total, shares, sum, k + 1)
    ensures next == Sum(Leading(total, shares, sum, k + 1))
  {
    LeadingNext(total, shares, sum, k);
    amount := Allotted(total, shares[k], sum);
    next := given + amount;
  }

  method LoadSplits(total: int, shares: seq<int>) returns (amounts: seq<int>)
    ensures amounts == Renormalized(total, shares)
  {
    amounts := [];
    if |shares| == 0 {
      return;
    }
    var sumShares := SumShares(shares);
    var given := 0;
    var i := 0;
    while i < |shares| - 1
      invariant 0 <= i <= |shares| - 1
      invariant amounts == Leading(total, shares, sumShares, i) && given == Sum(amounts)
    {
      var amount, next := GiveNext(total, shares, sumShares, i, given);
      amounts := amounts + [amount];
      given := next;
      i := i + 1;
    }
    amounts := amounts + [total - given];
  }

  // ---------- nothing is lost ----------

  /** Whatever the shares and the total, the amounts add up to exactly the total. */
  lemma SplitsSumToTotal(total: int, shares: seq<int>)
    requires shares != []
    ensures Sum(Renormalized(total, shares)) == total
  {
    var lead := Leading(total, shares, Sum(shares), |shares| - 1);
    SumOne(lead, total - Sum(lead));
  }

  lemma PortionAdds(total: int, a: int, b: int, sum: int)
    requires sum > 0
    ensures Portion(total, a + b, sum) == Portion(total, a, sum) + Portion(total, b, sum)
  {
    Distribute(a as real, b as real, total as real);
    QuotientAdds(total as real * a as real, total as real * b as real, sum as real);
  }

  lemma PortionOfAll(total: int, sum: int)
    requires sum > 0
    ensures Portion(total, sum, sum) == total as real
  {
    QuotientOfItself(total as real, sum as real);
  }

  predicate Near(x: int, exact: real, slack: real) {
    Abs(x as real - exact) <= slack
  }

  /** Rounding drifts by at most half a cent a split. */
  function RawSum(amounts: seq<real>): real {
    if amounts == [] then 0.0 else RawSum(amounts[..|amounts| - 1]) + amounts[|amounts| - 1]
  }

  /** Rounding each of k amounts moves their sum by at most k / 2. */
  lemma {:induction false} SumNear(rounded: seq<int>, exact: seq<real>)
    requires |rounded| == |exact| && forall i :: 0 <= i < |exact| ==> Near(rounded[i], exact[i], 0.5)
    ensures Near(Sum(rounded), RawSum(exact), |exact| as real / 2.0)
  {
    if exact != [] {
      var k := |exact| - 1;
      SumNear(rounded[..k], exact[..k]);
      assert Near(rounded[k], exact[k], 0.5);
    }
  }

  function Portions(total: int, shares: seq<int>, sum: int, k: nat): (r: seq<real>)
    requires k <= |shares| && sum > 0
    ensures |r| == k && forall i :: 0 <= i < k ==> r[i] == Portion(total, shares[i], sum)
  {
    seq(k, i requires 0 <= i < k => Portion(total, shares[i], sum))
  }

  lemma {:induction false} PortionsSum(total: int, shares: seq<int>, sum: int, k: nat)
    requires k <= |shares| && sum > 0
    ensures RawSum(Portions(total, shares, sum, k)) == Portion(total, Sum(shares[..k]), sum)
  {
    if k == 0 {
      Quotient(0.0, sum as real, 0.0);
    } else {
      PortionsSum(total, shares, sum, k - 1);
      assert Portions(total, shares, sum, k)[..k - 1] == Portions(total, shares, sum, k - 1);
      assert shares[..k][..k - 1] == shares[..k - 1];
      PortionAdds(total, Sum(shares[..k - 1]), shares[k - 1], sum);
    }
  }

  lemma LeadingDrift(total: int, shares: seq<int>, sum: int, k: nat)
    requires k <= |shares| && sum > 0
    ensures Near(Sum(Leading(total, shares, sum, k)), Portion(total, Sum(shares[..k]), sum), k as real / 2.0)
  {
    PortionsSum(total, shares, sum, k);
    SumNear(Leading(total, shares, sum, k), Portions(total, shares, sum, k));
  }

  lemma RemainderGap(total: int, lead: int, p: real, q: real, slack: real)
    requires Abs(lead as real - p) <= slack && p + q == total as real
    ensures Abs((total - lead) as real - q) <= slack
  {
  }

  lemma LastGap(total: int, lead: int, a: int, b: int, sum: int, slack: real)
    requires sum > 0 && a + b == sum && Near(lead, Portion(total, a, sum), slack)
    ensures Near(total - lead, Portion(total, b, sum), slack)
  {
    PortionAdds(total, a, b, sum);
    PortionOfAll(total, sum);
    RemainderGap(total, lead, Portion(total, a, sum), Portion(total, b, sum), slack);
  }

  lemma LastSplitDrift(total: int, shares: seq<int>)
    requires shares != [] && Sum(shares) > 0
    ensures var n := |shares|;
            Near(Renormalized(total, shares)[n - 1], Portion(total, shares[n - 1], Sum(shares)), (n - 1) as real / 2.0)
  {
    var n, sum := |shares|, Sum(shares);
    var lead := Sum(Leading(total, shares, sum, n - 1));
    assert Renormalized(total, shares)[n - 1] == total - lead;
    LastGap(total, lead, Sum(shares[..n - 1]), shares[n - 1], sum, (n - 1) as real / 2.0) by {
      LeadingDrift(total, shares, sum, n - 1);
    }
  }

  /** Every split is within half a cent of its proportion, the last within (n - 1) / 2 cents. */
  lemma SplitsAreProportional(total: int, shares: seq<int>, i: nat)
    requires i < |shares| && Sum(shares) > 0
    ensures Near(Renormalized(total, shares)[i], Portion(total, shares[i], Sum(shares)),
                 if i < |shares| - 1 then 0.5 else (|shares| - 1) as real / 2.0)
  {
    if i == |shares| - 1 {
      LastSplitDrift(total, shares);
    } else {
      assert Renormalized(total, shares)[i] == Allotted(total, shares[i], Sum(shares));
    }
  }

  // ---------- stored shares come back ----------

  lemma PortionOfItself(share: int, sum: int)
    requires sum > 0
    ensures Allotted(sum, share, sum) == share
  {
    QuotientOfItself(share as real, sum as real);
    assert Portion(sum, share, sum) == share as real;
    RoundWhole(share);
  }

  /** Shares that sum to the total come back unchanged. */
  lemma SharesComeBack(shares: seq<int>)
    requires shares != [] && Sum(shares) > 0
    ensures Renormalized(Sum(shares), shares) == shares
  {
    var n, total := |shares|, Sum(shares);
    forall i | 0 <= i < n - 1
      ensures Allotted(total, shares[i], total) == shares[i]
    {
      PortionOfItself(shares[i], total);
    }
    assert Leading(total, shares, total, n - 1) == shares[..n - 1];
  }

  /** Nudging a whole share by a fraction of a cent, either way, moves it only from one half on. */
  lemma Nudge(share: int, r: real)
    requires share > 0 && 0.0 < r < 1.0
    ensures Round(share as real + r) == if r < 0.5 then share else share + 1
    ensures Round(share as real - r) == if r <= 0.5 then share else share - 1
  {
  }

  lemma ScaledByACent(share: int, sum: int, d: int, r: real)
    requires sum > 0 && r == share as real / sum as real && (d == 1 || d == -1)
    ensures Portion(sum + d, share, sum) == if d == 1 then share as real + r else share as real - r
  {
    PortionOfAll(share, sum);
    assert Portion(sum + d, share, sum) == (sum as real + d as real) * r;
    assert sum as real * r == share as real;
  }

  lemma Ratio(share: int, sum: int, r: real)
    requires 0 < share < sum && r == share as real / sum as real
    ensures 0.0 < r < 1.0 && (r >= 0.5 <==> 2 * share >= sum)
  {
    var t := sum as real;
    assert r * t == share as real;
    SameSign(r, t);
    assert (1.0 - r) * t == t - share as real;
    SameSign(1.0 - r, t);
    assert (r - 0.5) * t == share as real - 0.5 * t;
    SameSign(r - 0.5, t);
  }

  lemma SameSign(x: real, t: real)
    requires t > 0.0
    ensures (x > 0.0 <==> x * t > 0.0) && (x >= 0.0 <==> x * t >= 0.0)
  {
  }

  /** A total one cent off moves a share by that cent or not at all, and only if it is at least half. */
  lemma OneCentMove(share: int, sum: int, d: int)
    requires 0 <= share <= sum && sum > 0 && -1 <= d <= 1
    ensures var moved := Allotted(sum + d, share, sum) - share;
            MovedBy(moved, d, share, sum)
  {
    if d == 0 {
      PortionOfItself(share, sum);
    } else if share == 0 {
      assert Portion(sum + d, 0, sum) == 0.0;
    } else if share == sum {
      PortionOfAll(sum + d, sum);
      RoundWhole(sum + d);
    } else {
      var r := share as real / sum as real;
      Ratio(share, sum, r);
      Nudge(share, r);
      ScaledByACent(share, sum, d, r);
    }
  }

  predicate NonNegative(shares: seq<int>) {
    forall i :: 0 <= i < |shares| ==> shares[i] >= 0
  }

  lemma {:induction false} SumGrows(shares: seq<int>, k: nat)
    requires NonNegative(shares) && k <= |shares|
    ensures 0 <= Sum(shares[..k]) <= Sum(shares)
    ensures k < |shares| ==> Sum(shares[..k + 1]) == Sum(shares[..k]) + shares[k] <= Sum(shares)
    decreases |shares| - k
  {
    SumNonNegative(shares[..k]);
    if k == |shares| {
      assert shares[..k] == shares;
    } else {
      assert shares[..k + 1][..k] == shares[..k];
      SumGrows(shares, k + 1);
    }
  }

  lemma {:induction false} SumNonNegative(shares: seq<int>)
    requires NonNegative(shares)
    ensures Sum(shares) >= 0
  {
    if shares != [] {
      SumNonNegative(shares[..|shares| - 1]);
    }
  }

  /** A share of `sum` that has moved by nothing or by d, and only if it is at least half. */
  predicate MovedBy(moved: int, d: int, share: int, sum: int) {
    (moved == 0 || moved == d) && (moved != 0 ==> 2 * share >= sum)
  }

  /**
   What the leading shares have moved in all, `before` being their sum: two can move only when
   each is a half, and then they are everything.
   */
  predicate Moves(moved: int, d: int, before: int, sum: int) {
    && (moved == 0 || moved == d || (moved == 2 * d && before == sum))
    && (moved != 0 ==> 2 * before >= sum)
  }

  lemma {:induction false} SumOfMoves(lead: seq<int>, shares: seq<int>, d: int)
    requires NonNegative(shares) && Sum(shares) > 0 && |lead| <= |shares|
    requires forall i :: 0 <= i < |lead| ==> MovedBy(lead[i] - shares[i], d, shares[i], Sum(shares))
    ensures var before := Sum(shares[..|lead|]); Moves(Sum(lead) - before, d, before, Sum(shares))
  {
    if lead != [] {
      var k := |lead| - 1;
      SumOfMoves(lead[..k], shares, d);
      SumGrows(shares, k);
      assert MovedBy(lead[k] - shares[k], d, shares[k], Sum(shares));
    }
  }

  lemma LeadingMove(shares: seq<int>, d: int, k: nat)
    requires NonNegative(shares) && Sum(shares) > 0 && k < |shares| && -1 <= d <= 1
    ensures var sum, before := Sum(shares), Sum(shares[..k]);
            Moves(Sum(Leading(sum + d, shares, sum, k)) - before, d, before, sum)
  {
    var sum := Sum(shares);
    var lead := Leading(sum + d, shares, sum, k);
    forall i | 0 <= i < k
      ensures MovedBy(lead[i] - shares[i], d, shares[i], sum)
    {
      SumGrows(shares, i);
      OneCentMove(shares[i], sum, d);
    }
    SumOfMoves(lead, shares, d);
  }

  /** Without a positive sum nothing is allotted, and the last takes the whole total. */
  lemma {:induction false} NothingAllotted(total: int, shares: seq<int>, sum: int, k: nat)
    requires k <= |shares| && sum <= 0
    ensures Sum(Leading(total, shares, sum, k)) == 0
  {
    if k > 0 {
      NothingAllotted(total, shares, sum, k - 1);
      LeadingNext(total, shares, sum, k - 1);
    }
  }

  lemma LastShareMoves(total: int, shares: seq<int>)
    requires NonNegative(shares) && shares != [] && -1 <= total - Sum(shares) <= 1
    ensures var lead := Leading(total, shares, Sum(shares), |shares| - 1);
            -1 <= total - Sum(lead) - shares[|shares| - 1] <= 1
  {
    SumGrows(shares, |shares| - 1);
    if Sum(shares) > 0 {
      LeadingMove(shares, total - Sum(shares), |shares| - 1);
    } else {
      NothingAllotted(total, shares, Sum(shares), |shares| - 1);
    }
  }

  lemma LeadingShareMoves(total: int, shares: seq<int>, i: nat)
    requires NonNegative(shares) && -1 <= total - Sum(shares) <= 1 && i < |shares|
    ensures -1 <= Allotted(total, shares[i], Sum(shares)) - shares[i] <= 1
  {
    SumGrows(shares, i);
    if Sum(shares) > 0 {
      OneCentMove(shares[i], Sum(shares), total - Sum(shares));
    }
  }

  /** Stored shares that sum to within a cent of the total come back within a cent each. */
  lemma ToleranceMovesOneCent(total: int, shares: seq<int>, i: nat)
    requires NonNegative(shares) && -1 <= total - Sum(shares) <= 1 && i < |shares|
    ensures -1 <= Renormalized(total, shares)[i] - shares[i] <= 1
  {
    if i < |shares| - 1 {
      LeadingShareMoves(total, shares, i);
    } else {
      LastShareMoves(total, shares);
    }
  }

  // ---------- however far the shares are off ----------

  /** The proportion of a total lies between the share and the share moved by all that the total is off. */
  predicate Between(x: real, share: real, d: real) {
    if d >= 0.0 then share <= x <= share + d else share + d <= x <= share
  }

  lemma PortionBetween(total: int, share: int, sum: int)
    requires 0 <= share <= sum && sum > 0
    ensures Between(Portion(total, share, sum), share as real, (total - sum) as real)
  {
    ScaledBetween(total as real, share as real, sum as real, (total - sum) as real);
    assert Portion(total, share, sum) == total as real * share as real / sum as real;
  }

  lemma RoundBetween(x: real, share: int, d: int)
    requires Between(x, share as real, d as real)
    ensures if d >= 0 then share <= Round(x) <= share + d else share + d <= Round(x) <= share
  {
    RoundWhole(share);
    RoundWhole(share + d);
    assert (share + d) as real == share as real + d as real;
    if d >= 0 {
      RoundMonotone(share as real, x);
      RoundMonotone(x, (share + d) as real);
    } else {
      RoundMonotone(x, share as real);
      RoundMonotone((share + d) as real, x);
    }
  }

  /** No allotted share overshoots: it moves towards the total, and not past all that it is off. */
  predicate Towards(moved: int, d: int) {
    if d >= 0 then 0 <= moved <= d else d <= moved <= 0
  }

  lemma AllottedTowards(total: int, share: int, sum: int)
    requires 0 <= share <= sum && sum > 0
    ensures Towards(Allotted(total, share, sum) - share, total - sum)
  {
    PortionBetween(total, share, sum);
    RoundBetween(Portion(total, share, sum), share, total - sum);
  }

  lemma {:induction false} SumsTowards(lead: seq<int>, shares: seq<int>, d: int)
    requires |lead| <= |shares| && forall i :: 0 <= i < |lead| ==> Towards(lead[i] - shares[i], d)
    ensures if d >= 0 then Sum(lead) >= Sum(shares[..|lead|]) else Sum(lead) <= Sum(shares[..|lead|])
  {
    if lead != [] {
      var k := |lead| - 1;
      SumsTowards(lead[..k], shares, d);
      assert shares[..k + 1][..k] == shares[..k];
      assert Towards(lead[k] - shares[k], d);
    }
  }

  lemma LeadTowards(total: int, shares: seq<int>, k: nat)
    requires NonNegative(shares) && Sum(shares) > 0 && k <= |shares|
    ensures var lead, before := Sum(Leading(total, shares, Sum(shares), k)), Sum(shares[..k]);
            if total >= Sum(shares) then lead >= before else lead <= before
  {
    var lead := Leading(total, shares, Sum(shares), k);
    forall i | 0 <= i < k
      ensures Towards(lead[i] - shares[i], total - Sum(shares))
    {
      SumGrows(shares, i);
      AllottedTowards(total, shares[i], Sum(shares));
    }
    SumsTowards(lead, shares, total - Sum(shares));
  }

  function Apart(a: int, b: int): nat {
    if a >= b then a - b else b - a
  }

  /** Half a cent a customer, as whole cents. */
  lemma WholePart(x: int, y: int, exact: real, n: nat)
    requires n >= 1 && Near(x, exact, (n - 1) as real / 2.0)
    ensures exact <= y as real ==> x - y <= (n - 1) / 2
    ensures exact >= y as real ==> y - x <= (n - 1) / 2
  {
  }

  lemma LastBack(total: int, shares: seq<int>, sum: int, given: int)
    requires shares != [] && Sum(shares) == sum && Sum(Leading(total, shares, sum, |shares| - 1)) == given
    ensures Renormalized(total, shares)[|shares| - 1] == total - given
  {
  }

  lemma LastMove(total: int, shares: seq<int>, lead: int)
    requires NonNegative(shares) && shares != [] && Sum(shares) > 0
    requires lead == Sum(Leading(total, shares, Sum(shares), |shares| - 1))
    ensures Apart(total - lead, shares[|shares| - 1]) <= Max(Apart(total, Sum(shares)), (|shares| - 1) / 2)
  {
    LeadTowards(total, shares, |shares| - 1);
    LastDrift(total, shares, lead);
    RestOf(total, Sum(shares), lead, Sum(shares[..|shares| - 1]), shares[|shares| - 1], (|shares| - 1) / 2);
  }

  /** On the far side, the last share is within half a cent for each other customer. */
  lemma LastDrift(total: int, shares: seq<int>, lead: int)
    requires NonNegative(shares) && shares != [] && Sum(shares) > 0
    requires lead == Sum(Leading(total, shares, Sum(shares), |shares| - 1))
    ensures var n := |shares|;
            && (total <= Sum(shares) ==> total - lead - shares[n - 1] <= (n - 1) / 2)
            && (total >= Sum(shares) ==> shares[n - 1] - (total - lead) <= (n - 1) / 2)
  {
    var n, sum := |shares|, Sum(shares);
    SumGrows(shares, n - 1);
    assert shares[..n] == shares;
    PortionBetween(total, shares[n - 1], sum);
    LastSplitDrift(total, shares);
    WholePart(total - lead, shares[n - 1], Portion(total, shares[n - 1], sum), n);
  }

  lemma RestOf(total: int, sum: int, lead: int, before: int, last: int, slack: nat)
    requires sum == before + last && (if total >= sum then lead >= before else lead <= before)
    requires total <= sum ==> total - lead - last <= slack
    requires total >= sum ==> last - (total - lead) <= slack
    ensures Apart(total - lead, last) <= Max(Apart(total, sum), slack)
  {
  }

  /** Every share moves by at most as much as the sum is off the total, or half a cent for each other customer. */
  lemma MovesAreBounded(total: int, shares: seq<int>, i: nat)
    requires NonNegative(shares) && i < |shares|
    ensures Apart(Renormalized(total, shares)[i], shares[i]) <= Max(Apart(total, Sum(shares)), (|shares| - 1) / 2)
  {
    SumGrows(shares, i);
    if Sum(shares) <= 0 {
      AllOnTheLast(total, shares, i);
    } else if i < |shares| - 1 {
      AllottedTowards(total, shares[i], Sum(shares));
    } else {
      var lead := Sum(Leading(total, shares, Sum(shares), i));
      LastBack(total, shares, Sum(shares), lead);
      LastMove(total, shares, lead);
    }
  }

  lemma AllOnTheLast(total: int, shares: seq<int>, i: nat)
    requires Sum(shares) <= 0 && i < |shares|
    ensures Renormalized(total, shares)[i] == if i < |shares| - 1 then 0 else total
  {
    NothingAllotted(total, shares, Sum(shares), |shares| - 1);
  }

  // ---------- storing shares ----------

  datatype Outcome = Stored(shares: seq<int>) | Refused

  /** The equal split: all but the last get the rounded share, the last the remainder. */
  function EqualShares(total: int, n: nat): (r: seq<int>)
    requires n >= 1
    ensures |r| == n
  {
    var each := Round(total as real / n as real);
    seq(n - 1, i => each) + [total - each * (n - 1)]
  }

  lemma {:induction false} SumOfEqual(each: int, n: nat)
    ensures Sum(seq(n, i => each)) == each * n
  {
    if n > 0 {
      SumOfEqual(each, n - 1);
      assert seq(n, i => each)[..n - 1] == seq(n - 1, i => each);
    }
  }

  lemma RoundQuotient(total: int, n: nat)
    requires total >= 0 && n >= 1
    ensures Round(total as real / n as real) == total / n + if 2 * (total % n) >= n then 1 else 0
  {
    var q, r := total / n, total % n;
    var f := r as real / n as real;
    assert f * n as real == r as real;
    assert total as real / n as real == q as real + f;
    SameSign(f, n as real);
    assert (1.0 - f) * n as real == (n - r) as real;
    SameSign(1.0 - f, n as real);
    assert (f - 0.5) * n as real == r as real - 0.5 * n as real;
    SameSign(f - 0.5, n as real);
  }

  lemma EqualSum(total: int, n: nat)
    requires n >= 1
    ensures Sum(EqualShares(total, n)) == total
  {
    var each := Round(total as real / n as real);
    SumOfEqual(each, n - 1);
    SumOne(seq(n - 1, i => each), total - each * (n - 1));
  }

  lemma RoundsToNothing(total: int, n: nat)
    requires total <= 0 && n >= 1
    ensures Round(total as real / n as real) == 0 <==> 2 * -total < n
  {
    var x := -(total as real) / n as real;
    RoundQuotient(-total, n);
    NegatedQuotient(total as real, n as real);
    RoundOdd(x);
    SmallQuotient(-total, n);
  }

  lemma NegatedQuotient(a: real, t: real)
    requires t > 0.0
    ensures -a / t == -(a / t)
  {
  }

  lemma SmallQuotient(a: nat, n: nat)
    requires n >= 1
    ensures a / n + (if 2 * (a % n) >= n then 1 else 0) == 0 <==> 2 * a < n
  {
    if a < n {
      assert a / n == 0 && a % n == a;
    } else {
      assert a / n >= 1;
    }
  }

  /** Of a negative total, everything is read back on the last share. */
  lemma NegativeEqualSplit(total: int, n: nat, each: int)
    requires total <= 0 && n >= 2 && each == Round(total as real / n as real)
    ensures Renormalized(total, EqualShares(total, n)) == EqualShares(total, n) <==> each == 0
  {
    var shares := EqualShares(total, n);
    EqualSum(total, n);
    var back := Renormalized(total, shares);
    forall i | 0 <= i < n
      ensures back[i] == (if i < n - 1 then 0 else total)
      ensures shares[i] == if i < n - 1 then each else total - each * (n - 1)
    {
      AllOnTheLast(total, shares, i);
    }
    if each == 0 {
      assert back == shares;
    } else {
      assert back[0] != shares[0];
    }
  }

  /**
   An equal split is exact, and reading it back against the same total changes nothing: unless
   the total is negative and comes to half a cent or more for each of several customers.
   */
  lemma EqualSplitIsExact(total: int, n: nat)
    requires n >= 1
    ensures Sum(EqualShares(total, n)) == total
    ensures Renormalized(total, EqualShares(total, n)) == EqualShares(total, n) <==> n == 1 || 2 * -total < n
  {
    EqualSum(total, n);
    if n == 1 {
      assert EqualShares(total, 1) == [total];
    } else if total > 0 {
      SharesComeBack(EqualShares(total, n));
    } else {
      NegativeEqualSplit(total, n, Round(total as real / n as real));
      RoundsToNothing(total, n);
    }
  }

  lemma LastOfEqual(total: int, n: nat, each: int)
    requires total >= 0 && n >= 1 && each == total / n + if 2 * (total % n) >= n then 1 else 0
    ensures total - each * (n - 1) < 0 <==> 2 * (total % n) >= n && total / n + total % n + 1 < n
  {
    var q, r := total / n, total % n;
    assert total == q * n + r;
    assert q * (n - 1) == q * n - q;
    assert (q + 1) * (n - 1) == q * n - q + n - 1;
  }

  /**
   The last customer is left with a negative share exactly when the others' shares were rounded
   up and there are too many of them.
   */
  lemma EqualSplitSign(total: int, n: nat)
    requires total >= 0 && n >= 1
    ensures EqualShares(total, n)[n - 1] < 0 <==> 2 * (total % n) >= n && total / n + total % n + 1 < n
  {
    RoundQuotient(total, n);
    LastOfEqual(total, n, Round(total as real / n as real));
  }

  /** Two cents between four: the first three round up to a cent and the last is left with minus one. */
  lemma EqualSplitCanGoNegative()
    ensures EqualShares(2, 4) == [1, 1, 1, -1]
  {
    assert Round(2.0 / 4.0) == 1;
  }

  function Rounded(amounts: seq<real>): (r: seq<int>)
    ensures |r| == |amounts| && forall i :: 0 <= i < |r| ==> r[i] == Round(amounts[i])
  {
    if amounts == [] then [] else Rounded(amounts[..|amounts| - 1]) + [Round(amounts[|amounts| - 1])]
  }

  predicate WithinACent(sum: real, total: int) {
    -1 <= Round(sum) - total <= 1
  }

  function Given(amounts: seq<Option<real>>): (r: seq<real>)
    requires forall i :: 0 <= i < |amounts| ==> amounts[i].Some?
    ensures |r| == |amounts| && forall i :: 0 <= i < |r| ==> r[i] == amounts[i].value
  {
    if amounts == [] then [] else Given(amounts[..|amounts| - 1]) + [amounts[|amounts| - 1].value]
  }

  /** Amounts are given for every customer, positive and within a cent of the total, or for none. */
  function SplitOutcome(total: int, named: seq<bool>, amounts: seq<Option<real>>): Outcome
    requires |named| == |amounts|
  {
    var n := |amounts|;
    if n < 2 || exists i :: 0 <= i < n && !named[i] then Refused
    else if forall i :: 0 <= i < n ==> amounts[i].None? then Stored(EqualShares(total, n))
    else if exists i :: 0 <= i < n && (amounts[i].None? || amounts[i].value <= 0.0) then Refused
    else if WithinACent(RawSum(Given(amounts)), total) then Stored(Rounded(Given(amounts)))
    else Refused
  }

  predicate Acceptable(named: bool, amount: Option<real>) {
    named && (amount.Some? ==> amount.value > 0.0)
  }

  /** Checks the customers one by one and collects the amounts given. */
  method ReadAmounts(named: seq<bool>, amounts: seq<Option<real>>) returns (ok: bool, raw: seq<real>)
    requires |named| == |amounts|
    ensures ok <==> forall i :: 0 <= i < |amounts| ==> Acceptable(named[i], amounts[i])
    ensures ok && |raw| == 0 <==> ok && forall i :: 0 <= i < |amounts| ==> amounts[i].None?
    ensures ok && |raw| == |amounts| <==> ok && forall i :: 0 <= i < |amounts| ==> amounts[i].Some?
    ensures ok && |raw| == |amounts| ==> raw == Given(amounts)
  {
    raw := [];
    var i := 0;
    while i < |amounts|
      invariant 0 <= i <= |amounts| && |raw| <= i
      invariant forall j :: 0 <= j < i ==> Acceptable(named[j], amounts[j])
      invariant |raw| == 0 <==> forall j :: 0 <= j < i ==> amounts[j].None?
      invariant |raw| == i <==> forall j :: 0 <= j < i ==> amounts[j].Some?
      invariant |raw| == i ==> forall j :: 0 <= j < i ==> raw[j] == amounts[j].value
    {
      if !named[i] {
        return false, [];
      }
      if amounts[i].Some? {
        if amounts[i].value <= 0.0 {
          return false, [];
        }
        raw := raw + [amounts[i].value];
      }
      i := i + 1;
    }
    ok := true;
  }

  method SetSplits(total: int, named: seq<bool>, amounts: seq<Option<real>>) returns (outcome: Outcome)
    requires |named| == |amounts|
    ensures outcome == SplitOutcome(total, named, amounts)
  {
    var n := |amounts|;
    if n < 2 {
      return Refused;
    }
    var ok, raw := ReadAmounts(named, amounts);
    if !ok || (|raw| != 0 && |raw| != n) {
      return Refused;
    }
    if |raw| == n {
      var amountSum := RawSum(raw);
      if !(-1 <= Round(amountSum) - total <= 1) {
        return Refused;
      }
      return Stored(Rounded(raw));
    }
    outcome := Stored(EqualShares(total, n));
  }

  // ---------- what an accepted request comes back as ----------

  /** Rounding positive amounts moves their sum by at most half a cent each; down, by strictly less. */
  lemma {:induction false} RoundedSum(raw: seq<real>)
    requires forall i :: 0 <= i < |raw| ==> raw[i] > 0.0
    ensures Sum(Rounded(raw)) as real - RawSum(raw) <= |raw| as real / 2.0
    ensures raw != [] ==> RawSum(raw) - Sum(Rounded(raw)) as real < |raw| as real / 2.0 && RawSum(raw) > 0.0
  {
    if raw != [] {
      RoundedSum(raw[..|raw| - 1]);
      RoundedNext(raw);
      HalfUp(raw[|raw| - 1]);
    }
  }

  lemma RoundedNext(raw: seq<real>)
    requires raw != []
    ensures Sum(Rounded(raw)) == Sum(Rounded(raw[..|raw| - 1])) + Round(raw[|raw| - 1])
  {
    SumOne(Rounded(raw[..|raw| - 1]), Round(raw[|raw| - 1]));
  }

  lemma HalfUp(x: real)
    requires x > 0.0
    ensures Round(x) as real - x <= 0.5 && x - Round(x) as real < 0.5
  {
  }

  lemma {:induction false} WholeSum(raw: seq<real>)
    requires forall i :: 0 <= i < |raw| ==> IsWhole(raw[i])
    ensures Sum(Rounded(raw)) as real == RawSum(raw)
  {
    if raw != [] {
      WholeSum(raw[..|raw| - 1]);
      RoundedNext(raw);
      assert IsWhole(raw[|raw| - 1]);
      RoundWhole(raw[|raw| - 1].Floor);
    }
  }

  /** An integer that close to a positive amount is that close to the amount rounded. */
  lemma RoundNear(sum: int, x: real, n: nat)
    requires x > 0.0 && sum as real - x <= n as real / 2.0 && x - sum as real < n as real / 2.0
    ensures Apart(sum, Round(x)) <= n / 2
  {
  }

  predicate AllGiven(amounts: seq<Option<real>>) {
    forall i :: 0 <= i < |amounts| ==> amounts[i].Some?
  }

  predicate WholeCents(amounts: seq<Option<real>>) {
    forall i :: 0 <= i < |amounts| ==> amounts[i].Some? && IsWhole(amounts[i].value)
  }

  /** The check is on the amounts as given, so the stored shares may be off by half a cent each more. */
  lemma StoredNearTotal(total: int, named: seq<bool>, amounts: seq<Option<real>>)
    requires |named| == |amounts| && AllGiven(amounts) && SplitOutcome(total, named, amounts).Stored?
    ensures var shares := SplitOutcome(total, named, amounts).shares;
            && |shares| == |amounts| && NonNegative(shares)
            && Apart(total, Sum(shares)) <= |shares| / 2 + 1
            && (WholeCents(amounts) ==> Apart(total, Sum(shares)) <= 1)
  {
    assert amounts[0].Some?;
    StoredGap(Given(amounts), total);
  }

  lemma StoredGap(raw: seq<real>, total: int)
    requires raw != [] && (forall i :: 0 <= i < |raw| ==> raw[i] > 0.0) && WithinACent(RawSum(raw), total)
    ensures Apart(total, Sum(Rounded(raw))) <= |raw| / 2 + 1
    ensures (forall i :: 0 <= i < |raw| ==> IsWhole(raw[i])) ==> Apart(total, Sum(Rounded(raw))) <= 1
  {
    RoundedSum(raw);
    RoundNear(Sum(Rounded(raw)), RawSum(raw), |raw|);
    if forall i :: 0 <= i < |raw| ==> IsWhole(raw[i]) {
      WholeSum(raw);
      RoundWhole(Sum(Rounded(raw)));
    }
  }

  /**
   Every accepted request with amounts: each comes back within a cent when the amounts are
   whole cents, or when the stored shares sum to within a cent of the total; in any case each
   of n customers within n / 2 + 1 cents.
   */
  lemma AcceptedSplitMoves(total: int, named: seq<bool>, amounts: seq<Option<real>>, i: nat)
    requires |named| == |amounts| && AllGiven(amounts) && SplitOutcome(total, named, amounts).Stored? && i < |amounts|
    ensures var shares := SplitOutcome(total, named, amounts).shares;
            var n, moved := |shares|, Apart(Renormalized(total, shares)[i], shares[i]);
            && n == |amounts|
            && (WholeCents(amounts) || -1 <= total - Sum(shares) <= 1 ==> moved <= 1)
            && moved <= n / 2 + 1
  {
    StoredNearTotal(total, named, amounts);
    var shares := SplitOutcome(total, named, amounts).shares;
    if -1 <= total - Sum(shares) <= 1 {
      ToleranceMovesOneCent(total, shares, i);
    }
    MovesAreBounded(total, shares, i);
  }

  // ---------- the bound is reached ----------

  lemma {:induction false} RawSumOfEqual(x: real, n: nat)
    ensures RawSum(seq(n, i => x)) == x * n as real
  {
    if n > 0 {
      RawSumOfEqual(x, n - 1);
      assert seq(n, i => x)[..n - 1] == seq(n - 1, i => x);
    }
  }

  /** n - 1 customers at half a cent, and one at two and a half. */
  function HalfCents(n: nat): seq<Option<real>>
    requires n >= 2
  {
    seq(n - 1, i => Some(0.5)) + [Some(2.5)]
  }

  function HalfCentShares(n: nat): seq<int>
    requires n >= 2
  {
    seq(n - 1, i => 1) + [3]
  }

  lemma HalfCentsSum(n: nat)
    requires n >= 2
    ensures AllGiven(HalfCents(n)) && RawSum(Given(HalfCents(n))) == (n - 1) as real / 2.0 + 2.5
    ensures Rounded(Given(HalfCents(n))) == HalfCentShares(n)
  {
    var raw := Given(HalfCents(n));
    assert raw[..n - 1] == seq(n - 1, i => 0.5) && raw[n - 1] == 2.5;
    RawSumOfEqual(0.5, n - 1);
  }

  lemma HalfCentsRounded(n: nat)
    requires n >= 2
    ensures Round((n - 1) as real / 2.0 + 2.5) == (n + 1) / 2 + 2
  {
  }

  lemma HalfCentsAccepted(n: nat)
    requires n >= 2
    ensures SplitOutcome((n + 1) / 2 + 1, seq(n, i => true), HalfCents(n)) == Stored(HalfCentShares(n))
  {
    HalfCentsSum(n);
    HalfCentsRounded(n);
    assert HalfCents(n)[0] == Some(0.5);
    assert WithinACent(RawSum(Given(HalfCents(n))), (n + 1) / 2 + 1);
  }

  /** One cent of n + 2, of a total at least half of that, stays one cent. */
  lemma CentStays(total: int, sum: int)
    requires 0 < sum <= 2 * total && total <= sum
    ensures Allotted(total, 1, sum) == 1
  {
    var x := total as real / sum as real;
    Fraction(total as real, sum as real);
    assert (x - 0.5) * sum as real == total as real - 0.5 * sum as real;
    SameSign(x - 0.5, sum as real);
    assert Portion(total, 1, sum) == x;
  }

  lemma LeadingCents(total: int, shares: seq<int>, sum: int, k: nat)
    requires k <= |shares| && (forall i :: 0 <= i < k ==> shares[i] == 1) && Allotted(total, 1, sum) == 1
    ensures Sum(Leading(total, shares, sum, k)) == k
  {
    assert Leading(total, shares, sum, k) == seq(k, i => 1);
    SumOfEqual(1, k);
  }

  lemma HalfCentsReadBack(n: nat)
    requires n >= 2
    ensures Renormalized((n + 1) / 2 + 1, HalfCentShares(n))[n - 1] == 3 - (n / 2 + 1)
  {
    var shares, total, sum := HalfCentShares(n), (n + 1) / 2 + 1, n + 2;
    SumOfEqual(1, n - 1);
    SumOne(seq(n - 1, i => 1), 3);
    CentStays(total, sum);
    LeadingCents(total, shares, sum, n - 1);
    LastBack(total, shares, sum, n - 1);
  }

  /**
   The bound is reached by every number of customers: n - 1 of them at half a cent and one at
   two and a half are accepted one cent short of their sum, stored at one cent and three, and
   the last comes back n / 2 + 1 cents lower.
   */
  lemma HalfCentsMoveTheLast(n: nat)
    requires n >= 2
    ensures var total, shares := (n + 1) / 2 + 1, HalfCentShares(n);
            && SplitOutcome(total, seq(n, i => true), HalfCents(n)) == Stored(shares)
            && Renormalized(total, shares)[n - 1] == shares[n - 1] - (n / 2 + 1)
  {
    HalfCentsAccepted(n);
    HalfCentsReadBack(n);
  }

  // ---------- what is accepted ----------

  lemma WithinACentExactly(sum: real, total: int)
    requires sum > 0.0
    ensures WithinACent(sum, total) <==> total as real - 1.5 <= sum < total as real + 1.5
  {
  }

  /** The amounts given, all positive, miss the total by at most a cent and a half. */
  predicate AmountsFit(amounts: seq<Option<real>>, total: int) {
    && (forall i :: 0 <= i < |amounts| ==> amounts[i].Some? && amounts[i].value > 0.0)
    && total as real - 1.5 <= RawSum(Given(amounts)) < total as real + 1.5
  }

  /** Two customers or more, each named, with no amounts at all or amounts for all that fit. */
  lemma AcceptsExactly(total: int, named: seq<bool>, amounts: seq<Option<real>>)
    requires |named| == |amounts|
    ensures SplitOutcome(total, named, amounts).Stored? <==>
              && |amounts| >= 2 && (forall i :: 0 <= i < |named| ==> named[i])
              && ((forall i :: 0 <= i < |amounts| ==> amounts[i] == None) || AmountsFit(amounts, total))
  {
    if |amounts| >= 2 && forall i :: 0 <= i < |amounts| ==> amounts[i].Some? && amounts[i].value > 0.0 {
      assert amounts[0].Some?;
      RoundedSum(Given(amounts));
      WithinACentExactly(RawSum(Given(amounts)), total);
    }
  }

  /** All but the last of an equal split get the n-th part to half a cent, and the last what is left. */
  lemma EqualSharesAreEqual(total: int, n: nat, i: nat)
    requires i < n
    ensures i < n - 1 ==> 2 * Apart(n * EqualShares(total, n)[i], total) <= n
    ensures i < n - 1 ==> EqualShares(total, n)[i] == EqualShares(total, n)[0]
  {
    if i < n - 1 {
      var x := total as real / n as real;
      assert x * n as real == total as real;
      NthPart(Round(x), x, total, n);
    }
  }

  lemma NthPart(k: int, x: real, total: int, n: nat)
    requires -0.5 <= k as real - x <= 0.5 && x * n as real == total as real
    ensures 2 * Apart(n * k, total) <= n
  {
    ProductSign(k as real - x + 0.5, n as real);
    ProductSign(0.5 - (k as real - x), n as real);
    Distribute(k as real, -x + 0.5, n as real);
    Distribute(-x, 0.5, n as real);
    Distribute(-(k as real), x + 0.5, n as real);
    Distribute(x, 0.5, n as real);
    assert k as real * n as real == (n * k) as real;
  }
}
