/** Amounts in words, in the Indian numbering system, and a decoder that reads them back. */
module IndianWords {
  datatype Word =
    | Number(value: nat)
    | Hundred | Thousand | Lakh | Crore
    | Rupees | Dollars | Paisa | Cents | And | Only

  const CRORE := 10000000
  const LAKH := 100000

  predicate InVocabulary(w: Word) {
    w.Number? ==> w.value < 20 || (w.value < 100 && w.value % 10 == 0)
  }

  // ---------- the words of a number ----------

  function TwoDigits(n: nat): seq<Word> {
    if n == 0 then []
    else if n < 20 then [Number(n)]
    else if n % 10 == 0 then [Number(n)]
    else [Number(n - n % 10), Number(n % 10)]
  }

  /** n of a scale word; nothing when there are none. */
  function Scaled(n: nat, scale: Word): seq<Word> {
    if n == 0 then [] else TwoDigits(n) + [scale]
  }

  function Groups(lakhs: nat, thousands: nat, hundreds: nat, rest: nat): seq<Word> {
    Scaled(lakhs, Lakh) + Scaled(thousands, Thousand) + Scaled(hundreds, Hundred) + TwoDigits(rest)
  }

  function BelowCrore(n: nat): seq<Word> {
    Groups(n / LAKH, n % LAKH / 1000, n % 1000 / 100, n % 100)
  }

  function Words(n: nat): seq<Word> {
    if n == 0 then [Number(0)]
    else if n < CRORE then BelowCrore(n)
    else Words(n / CRORE) + [Crore] + BelowCrore(n % CRORE)
  }

  predicate IsUnit(w: Word) {
    w == Rupees || w == Dollars
  }

  /** Words that can be spelled and name no currency. */
  predicate Plain(ws: seq<Word>) {
    forall i :: 0 <= i < |ws| ==> InVocabulary(ws[i]) && !IsUnit(ws[i])
  }

  lemma PlainAppend(a: seq<Word>, b: seq<Word>)
    requires Plain(a) && Plain(b)
    ensures Plain(a + b)
  {
  }

  lemma PlainScaled(n: nat, scale: Word)
    requires n < 100 && InVocabulary(scale) && !IsUnit(scale)
    ensures Plain(Scaled(n, scale)) && Plain(TwoDigits(n)) && (n > 0 ==> TwoDigits(n) != [])
  {
  }

  lemma PlainGroups(lakhs: nat, thousands: nat, hundreds: nat, rest: nat)
    requires lakhs < 100 && thousands < 100 && hundreds < 100 && rest < 100
    ensures Plain(Groups(lakhs, thousands, hundreds, rest))
    ensures lakhs + thousands + hundreds + rest > 0 ==> Groups(lakhs, thousands, hundreds, rest) != []
  {
    PlainScaled(lakhs, Lakh);
    PlainScaled(thousands, Thousand);
    PlainScaled(hundreds, Hundred);
    PlainScaled(rest, Hundred);
    PlainAppend(Scaled(lakhs, Lakh), Scaled(thousands, Thousand));
    PlainAppend(Scaled(lakhs, Lakh) + Scaled(thousands, Thousand), Scaled(hundreds, Hundred));
  }

  lemma DigitGroups(n: nat)
    requires n < CRORE
    ensures n == n / LAKH * LAKH + n % LAKH / 1000 * 1000 + n % 1000 / 100 * 100 + n % 100
    ensures n / LAKH < 100 && n % LAKH / 1000 < 100 && n % 1000 / 100 < 10
  {
    var q, r := n / LAKH, n % LAKH;
    var t, k := r / 1000, r % 1000;
    var h, u := k / 100, k % 100;
    ByThousand(100 * q + t, k);
    ByHundred(1000 * q + 10 * t + h, u);
  }

  lemma ByThousand(q: nat, r: nat)
    requires r < 1000
    ensures (1000 * q + r) % 1000 == r
  {
  }

  lemma ByHundred(q: nat, r: nat)
    requires r < 100
    ensures (100 * q + r) % 100 == r
  {
  }

  lemma PlainBelowCrore(n: nat)
    requires n < CRORE
    ensures Plain(BelowCrore(n)) && (n > 0 ==> BelowCrore(n) != [])
  {
    DigitGroups(n);
    PlainGroups(n / LAKH, n % LAKH / 1000, n % 1000 / 100, n % 100);
  }

  lemma {:induction false} PlainWords(n: nat)
    ensures Plain(Words(n)) && Words(n) != []
  {
    if 0 < n < CRORE {
      PlainBelowCrore(n);
    } else if n > 0 {
      var low := BelowCrore(n % CRORE);
      PlainBelowCrore(n % CRORE);
      PlainWords(n / CRORE);
      PlainAppend(Words(n / CRORE), [Crore]);
      PlainAppend(Words(n / CRORE) + [Crore], low);
    }
  }

  // ---------- reading a number back ----------

  /** The decoder's state: what the finished scales are worth, and the open group. */
  datatype Reading = Reading(total: nat, group: nat)

  function Read(r: Reading, w: Word): Reading {
    match w
    case Number(v) => Reading(r.total, r.group + v)
    case Hundred => Reading(r.total + r.group * 100, 0)
    case Thousand => Reading(r.total + r.group * 1000, 0)
    case Lakh => Reading(r.total + r.group * 100000, 0)
    case Crore => Reading((r.total + r.group) * 10000000, 0)
    case _ => r
  }

  function ReadAll(r: Reading, ws: seq<Word>): Reading {
    if ws == [] then r else Read(ReadAll(r, ws[..|ws| - 1]), ws[|ws| - 1])
  }

  function Value(ws: seq<Word>): nat {
    var r := ReadAll(Reading(0, 0), ws);
    r.total + r.group
  }

  lemma {:induction false} ReadAppend(r: Reading, a: seq<Word>, b: seq<Word>)
    ensures ReadAll(r, a + b) == ReadAll(ReadAll(r, a), b)
  {
    if b == [] {
      assert a + b == a;
    } else {
      ReadAppend(r, a, b[..|b| - 1]);
      assert (a + b)[..|a + b| - 1] == a + b[..|b| - 1];
    }
  }

  lemma ReadOne(r: Reading, w: Word)
    ensures ReadAll(r, [w]) == Read(r, w)
  {
    assert [w][..0] == [];
  }

  lemma ReadTwoDigits(total: nat, n: nat)
    ensures ReadAll(Reading(total, 0), TwoDigits(n)) == Reading(total, n)
  {
    var r := Reading(total, 0);
    if n != 0 && (n < 20 || n % 10 == 0) {
      ReadOne(r, Number(n));
    } else if n != 0 {
      var a, b := Number(n - n % 10), Number(n % 10);
      assert [a, b] == [a] + [b];
      ReadAppend(r, [a], [b]);
      ReadOne(r, a);
      ReadOne(Read(r, a), b);
    }
  }

  function Worth(scale: Word): nat {
    match scale
    case Hundred => 100
    case Thousand => 1000
    case Lakh => 100000
    case _ => 0
  }

  lemma ReadScaled(total: nat, n: nat, scale: Word)
    requires scale == Hundred || scale == Thousand || scale == Lakh
    ensures ReadAll(Reading(total, 0), Scaled(n, scale)) == Reading(total + n * Worth(scale), 0)
  {
    if n > 0 {
      ReadAppend(Reading(total, 0), TwoDigits(n), [scale]);
      ReadTwoDigits(total, n);
      ReadOne(Reading(total, n), scale);
    }
  }

  lemma ReadFour(r: Reading, a: seq<Word>, b: seq<Word>, c: seq<Word>, d: seq<Word>)
    ensures ReadAll(r, a + b + c + d) == ReadAll(ReadAll(ReadAll(ReadAll(r, a), b), c), d)
  {
    ReadAppend(r, a, b);
    ReadAppend(r, a + b, c);
    ReadAppend(r, a + b + c, d);
  }

  lemma ReadGroups(total: nat, lakhs: nat, thousands: nat, hundreds: nat, rest: nat)
    ensures ReadAll(Reading(total, 0), Groups(lakhs, thousands, hundreds, rest))
         == Reading(total + lakhs * LAKH + thousands * 1000 + hundreds * 100, rest)
  {
    ReadFour(Reading(total, 0), Scaled(lakhs, Lakh), Scaled(thousands, Thousand), Scaled(hundreds, Hundred),
        TwoDigits(rest));
    ReadScaled(total, lakhs, Lakh);
    ReadScaled(total + lakhs * LAKH, thousands, Thousand);
    ReadScaled(total + lakhs * LAKH + thousands * 1000, hundreds, Hundred);
    ReadTwoDigits(total + lakhs * LAKH + thousands * 1000 + hundreds * 100, rest);
  }

  lemma ReadBelowCrore(total: nat, n: nat)
    requires n < CRORE
    ensures var r := ReadAll(Reading(total, 0), BelowCrore(n)); r.total + r.group == total + n
  {
    ReadGroups(total, n / LAKH, n % LAKH / 1000, n % 1000 / 100, n % 100);
    DigitGroups(n);
  }

  lemma ReadCrores(a: seq<Word>, low: seq<Word>)
    ensures var r := ReadAll(Reading(Value(a) * CRORE, 0), low);
            Value(a + [Crore] + low) == r.total + r.group
  {
    var r := Reading(0, 0);
    ReadAppend(r, a, [Crore]);
    ReadAppend(r, a + [Crore], low);
    ReadOne(ReadAll(r, a), Crore);
  }

  /** Every number is read back from its own words, nested crores included. */
  lemma {:induction false} NumberRoundTrip(n: nat)
    ensures Value(Words(n)) == n
  {
    if n == 0 {
      ReadOne(Reading(0, 0), Number(0));
    } else if n < CRORE {
      ReadBelowCrore(0, n);
    } else {
      NumberRoundTrip(n / CRORE);
      ReadCrores(Words(n / CRORE), BelowCrore(n % CRORE));
      ReadBelowCrore(n / CRORE * CRORE, n % CRORE);
    }
  }

  // ---------- one way to say it ----------

  /** How a number below a hundred is said: one word, or tens and ones. */
  predicate SaysTwoDigits(ws: seq<Word>) {
    || ws == []
    || (|ws| == 1 && ws[0].Number? && 0 < ws[0].value < 100 && InVocabulary(ws[0]))
    || (|ws| == 2 && ws[0].Number? && ws[1].Number? && InVocabulary(ws[0]) && 20 <= ws[0].value < 100
        && 0 < ws[1].value < 10)
  }

  lemma ValueOfTwo(a: nat, b: nat)
    ensures Value([Number(a), Number(b)]) == a + b
  {
    assert [Number(a), Number(b)] == [Number(a)] + [Number(b)];
    ReadAppend(Reading(0, 0), [Number(a)], [Number(b)]);
    ReadOne(Reading(0, 0), Number(a));
    ReadOne(Reading(0, a), Number(b));
  }

  /** The words of a number below a hundred are the only way to say it. */
  lemma OneWayToSay(ws: seq<Word>)
    requires SaysTwoDigits(ws)
    ensures Value(ws) < 100 && TwoDigits(Value(ws)) == ws
  {
    if |ws| == 1 {
      ReadOne(Reading(0, 0), ws[0]);
      assert ws == [ws[0]];
    } else if |ws| == 2 {
      ValueOfTwo(ws[0].value, ws[1].value);
      assert ws == [Number(ws[0].value), Number(ws[1].value)];
    }
  }

  lemma LowGroups(l: nat, t: nat, h: nat, r: nat)
    requires l < 100 && t < 100 && h < 10 && r < 100
    ensures var n := l * 100000 + t * 1000 + h * 100 + r;
            n < 10000000 && n / 100000 == l && n % 100000 / 1000 == t && n % 1000 / 100 == h && n % 100 == r
  {
    var n := l * 100000 + t * 1000 + h * 100 + r;
    ByThousand(100 * l + t, h * 100 + r);
    ByHundred(1000 * l + 10 * t + h, r);
    assert n % 1000 == h * 100 + r && n % 100 == r;
  }

  lemma SaidBelow(l: nat, t: nat, h: nat, r: nat, low: nat)
    requires l < 100 && t < 100 && h < 10 && r < 100 && low == l * 100000 + t * 1000 + h * 100 + r
    ensures low < 10000000 && BelowCrore(low) == Groups(l, t, h, r)
  {
    LowGroups(l, t, h, r);
  }

  /** Any number of crores, lakhs, thousands, hundreds and the rest is said in that order, leaving out what is zero. */
  lemma SaidInOrder(c: nat, l: nat, t: nat, h: nat, r: nat, n: nat)
    requires l < 100 && t < 100 && h < 10 && r < 100 && n > 0
    requires n == c * 10000000 + l * 100000 + t * 1000 + h * 100 + r
    ensures Words(n)
         == (if c == 0 then [] else Words(c) + [Crore])
            + ((if l == 0 then [] else TwoDigits(l) + [Lakh]) + (if t == 0 then [] else TwoDigits(t) + [Thousand])
               + (if h == 0 then [] else TwoDigits(h) + [Hundred]) + TwoDigits(r))
  {
    var low := l * 100000 + t * 1000 + h * 100 + r;
    SaidBelow(l, t, h, r, low);
    SaidWithCrores(c, low, n);
  }

  lemma SaidWithCrores(c: nat, low: nat, n: nat)
    requires low < 10000000 && n == c * 10000000 + low > 0
    ensures Words(n) == (if c == 0 then [] else Words(c) + [Crore]) + BelowCrore(low)
  {
    if c == 0 {
      assert [] + BelowCrore(low) == BelowCrore(low);
    } else {
      ByCrore(c, low);
    }
  }

  lemma ByCrore(q: nat, r: nat)
    requires r < 10000000
    ensures (q * 10000000 + r) / 10000000 == q && (q * 10000000 + r) % 10000000 == r
  {
  }

  // ---------- amounts ----------

  function MinorWords(minor: nat, sub: Word): seq<Word> {
    if minor == 0 then [Only] else [And] + Words(minor) + [sub, Only]
  }

  function AmountWords(cents: nat, unit: Word, sub: Word): seq<Word> {
    Words(cents / 100) + [unit] + MinorWords(cents % 100, sub)
  }

  /** The position of the currency word. */
  function UnitAt(ws: seq<Word>): (i: nat)
    ensures i <= |ws|
    ensures i < |ws| ==> IsUnit(ws[i])
    ensures forall j :: 0 <= j < i ==> !IsUnit(ws[j])
  {
    if ws == [] then 0 else if IsUnit(ws[0]) then 0 else 1 + UnitAt(ws[1..])
  }

  /** Reads an amount, in cents, from its words; zero when they name no currency. */
  function Amount(ws: seq<Word>): nat {
    var i := UnitAt(ws);
    if i == |ws| then 0
    else
      var rest := ws[i + 1..];
      Value(ws[..i]) * 100 + MinorAmount(rest)
  }

  lemma SplitAtUnit(major: seq<Word>, unit: Word, rest: seq<Word>)
    requires Plain(major) && IsUnit(unit)
    ensures var ws := major + [unit] + rest;
            UnitAt(ws) == |major| && ws[..|major|] == major && ws[|major| + 1..] == rest
  {
    var ws := major + [unit] + rest;
    assert forall j :: 0 <= j < |major| ==> ws[j] == major[j];
    assert ws[|major|] == unit;
  }

  /** What is read from the words after the currency word. */
  function MinorAmount(rest: seq<Word>): nat {
    if |rest| >= 3 then Value(rest[1..|rest| - 2]) else 0
  }

  lemma MinorRoundTrip(minor: nat, sub: Word)
    ensures MinorAmount(MinorWords(minor, sub)) == minor
  {
    if minor != 0 {
      NumberRoundTrip(minor);
      PlainWords(minor);
      MinorMiddle(Words(minor), sub);
    }
  }

  lemma MinorMiddle(ws: seq<Word>, sub: Word)
    ensures var rest := [And] + ws + [sub, Only]; rest[1..|rest| - 2] == ws
  {
  }

  lemma AmountOf(major: seq<Word>, unit: Word, rest: seq<Word>)
    requires Plain(major) && IsUnit(unit)
    ensures Amount(major + [unit] + rest) == Value(major) * 100 + MinorAmount(rest)
  {
    SplitAtUnit(major, unit, rest);
  }

  /** Every amount is read back, to the cent, from its words. */
  lemma AmountRoundTrip(cents: nat, unit: Word, sub: Word)
    requires IsUnit(unit)
    ensures Amount(AmountWords(cents, unit, sub)) == cents
  {
    PlainWords(cents / 100);
    NumberRoundTrip(cents / 100);
    MinorRoundTrip(cents % 100, sub);
    AmountOf(Words(cents / 100), unit, MinorWords(cents % 100, sub));
  }
}
