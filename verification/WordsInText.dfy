/** The text of amounts in words, as the invoice prints it and as it can be read back. */
module WordsInText {
  import opened Money
  import opened Joining
  import opened IndianWords
  import Text

  // ---------- spelling ----------

  const ONES: seq<string> := [
    "", "One", "Two", "Three", "Four", "Five", "Six", "Seven", "Eight", "Nine", "Ten", "Eleven", "Twelve",
    "Thirteen", "Fourteen", "Fifteen", "Sixteen", "Seventeen", "Eighteen", "Nineteen"
  ]
  const TENS: seq<string> := ["", "", "Twenty", "Thirty", "Forty", "Fifty", "Sixty", "Seventy", "Eighty", "Ninety"]

  function Spell(w: Word): string {
    match w
    case Number(v) => if v == 0 then "Zero" else if v < 20 then ONES[v] else if v < 100 then TENS[v / 10] else ""
    case Hundred => "Hundred"
    case Thousand => "Thousand"
    case Lakh => "Lakh"
    case Crore => "Crore"
    case Rupees => "Rupees"
    case Dollars => "Dollars"
    case Paisa => "Paisa"
    case Cents => "Cents"
    case And => "And"
    case Only => "Only"
  }

  /** Reads one word from a few of its letters. */
  function Meaning(s: string): Word {
    if |s| < 3 then And else match s[0]
    case 'Z' => Number(0)
    case 'O' => if |s| == 3 then Number(1) else Only
    case 'T' =>
      if |s| == 3 then Number(if s[1] == 'w' then 2 else 10)
      else if |s| == 5 then Number(3)
      else if |s| == 6 then Number(if s[1] == 'h' then 30 else if s[3] == 'l' then 12 else 20)
      else if s[2] == 'o' then Thousand
      else Number(13)
    case 'F' =>
      if |s| == 4 then Number(if s[2] == 'u' then 4 else 5)
      else if |s| == 5 then Number(if s[2] == 'r' then 40 else 50)
      else Number(if |s| == 7 then 15 else 14)
    case 'S' =>
      if |s| == 3 then Number(6)
      else if |s| == 5 then Number(if s[2] == 'v' then 7 else 60)
      else if |s| == 7 then Number(if s[2] == 'v' then 70 else 16)
      else Number(17)
    case 'E' => Number(if |s| == 5 then 8 else if |s| == 8 then 18 else if s[1] == 'l' then 11 else 80)
    case 'N' => Number(if |s| == 4 then 9 else if |s| == 6 then 90 else 19)
    case 'H' => Hundred
    case 'L' => Lakh
    case 'C' => if s[1] == 'r' then Crore else Cents
    case 'R' => Rupees
    case 'D' => Dollars
    case 'P' => Paisa
    case _ => And
  }

  lemma OnesSpelled(v: nat)
    requires v < 10
    ensures NoSpace(Spell(Number(v))) && Meaning(Spell(Number(v))) == Number(v)
  {
  }

  lemma TeensSpelled(v: nat)
    requires 10 <= v < 20
    ensures NoSpace(Spell(Number(v))) && Meaning(Spell(Number(v))) == Number(v)
  {
  }

  lemma TensSpelled(v: nat)
    requires 20 <= v < 100 && v % 10 == 0
    ensures NoSpace(Spell(Number(v))) && Meaning(Spell(Number(v))) == Number(v)
  {
  }

  /** No two words are spelled alike, and none contains a space. */
  lemma SpelledWord(w: Word)
    requires InVocabulary(w)
    ensures NoSpace(Spell(w)) && Meaning(Spell(w)) == w
  {
    if w.Number? {
      if w.value < 10 {
        OnesSpelled(w.value);
      } else if w.value < 20 {
        TeensSpelled(w.value);
      } else {
        TensSpelled(w.value);
      }
    }
  }

  predicate Spellable(ws: seq<Word>) {
    forall i :: 0 <= i < |ws| ==> InVocabulary(ws[i])
  }

  function Spelled(ws: seq<Word>): (r: seq<string>)
    ensures |r| == |ws| && forall i :: 0 <= i < |ws| ==> r[i] == Spell(ws[i])
  {
    if ws == [] then [] else Spelled(ws[..|ws| - 1]) + [Spell(ws[|ws| - 1])]
  }

  function Meanings(texts: seq<string>): (r: seq<Word>)
    ensures |r| == |texts| && forall i :: 0 <= i < |texts| ==> r[i] == Meaning(texts[i])
  {
    if texts == [] then [] else Meanings(texts[..|texts| - 1]) + [Meaning(texts[|texts| - 1])]
  }

  lemma SpelledAppend(a: seq<Word>, b: seq<Word>)
    ensures Spelled(a + b) == Spelled(a) + Spelled(b)
  {
    forall i | 0 <= i < |a + b|
      ensures Spelled(a + b)[i] == (Spelled(a) + Spelled(b))[i]
    {
      assert (a + b)[i] == if i < |a| then a[i] else b[i - |a|];
    }
  }

  lemma SpelledSpaceless(ws: seq<Word>)
    requires Spellable(ws)
    ensures Spaceless(Spelled(ws)) && Meanings(Spelled(ws)) == ws
  {
    forall i | 0 <= i < |ws|
      ensures NoSpace(Spelled(ws)[i]) && Meaning(Spelled(ws)[i]) == ws[i]
    {
      SpelledWord(ws[i]);
    }
  }

  /** The text of a sequence of words, and the words read back from a text. */
  function Written(ws: seq<Word>): string {
    Join(Spelled(ws))
  }

  function Parse(text: string): seq<Word> {
    Meanings(Split(text))
  }

  lemma TextRoundTrip(ws: seq<Word>)
    requires Spellable(ws)
    ensures Parse(Written(ws)) == ws
  {
    SpelledSpaceless(ws);
    SplitJoin(Spelled(ws));
  }

  // ---------- the text as the program builds it ----------

  method InvTwo(n: nat) returns (s: string)
    requires n < 100
    ensures s == Written(TwoDigits(n))
  {
    if n < 20 {
      return ONES[n];
    }
    var tens, ones := TENS[n / 10], ONES[n % 10];
    s := Text.TrimSpace(tens + " " + ones);
    TensAndOnes(n);
  }

  lemma OneWritten(w: Word)
    requires InVocabulary(w)
    ensures Text.TrimSpace(Spell(w) + " " + "") == Written([w])
  {
    SpelledWord(w);
    TrimOne(Spell(w));
    assert Spelled([w]) == [Spell(w)];
  }

  lemma TwoWritten(v: Word, w: Word)
    requires InVocabulary(v) && InVocabulary(w)
    ensures Text.TrimSpace(Spell(v) + " " + Spell(w)) == Written([v, w])
  {
    SpelledWord(v);
    SpelledWord(w);
    TrimTwo(Spell(v), Spell(w));
    assert Spelled([v, w]) == [Spell(v), Spell(w)];
  }

  lemma TensAndOnes(n: nat)
    requires 20 <= n < 100
    ensures Text.TrimSpace(TENS[n / 10] + " " + ONES[n % 10]) == Written(TwoDigits(n))
  {
    assert Spell(Number(n - n % 10)) == TENS[n / 10];
    if n % 10 == 0 {
      OneWritten(Number(n));
    } else {
      TwoWritten(Number(n - n % 10), Number(n % 10));
    }
  }

  /** Appends a group and its scale word, when there is one. */
  method Say(res: string, n: nat, scale: Word, ghost said: seq<Word>) returns (r: string)
    requires n < 100 && res == Spaced(Spelled(said))
    ensures r == Spaced(Spelled(said + Scaled(n, scale)))
  {
    r := res;
    if n > 0 {
      var group := InvTwo(n);
      r := r + (group + " " + Spell(scale) + " ");
      PhraseSaid(said, TwoDigits(n), scale);
    } else {
      assert said + Scaled(n, scale) == said;
    }
  }

  lemma PhraseSaid(said: seq<Word>, group: seq<Word>, scale: Word)
    requires group != []
    ensures Spaced(Spelled(said + (group + [scale])))
         == Spaced(Spelled(said)) + (Written(group) + " " + Spell(scale) + " ")
  {
    SpelledAppend(said, group + [scale]);
    SpelledAppend(group, [scale]);
    assert Spelled([scale]) == [Spell(scale)];
    Phrase(Spelled(said), Spelled(group), Spell(scale));
  }

  /** The part below a crore, after the crores already said. */
  method SayGroups(top: string, lakhs: nat, thousands: nat, hundreds: nat, rest: nat, ghost said: seq<Word>)
    returns (s: string)
    requires lakhs < 100 && thousands < 100 && hundreds < 100 && rest < 100
    requires top == Spaced(Spelled(said)) && Plain(said) && said + Groups(lakhs, thousands, hundreds, rest) != []
    ensures s == Written(said + Groups(lakhs, thousands, hundreds, rest))
  {
    ghost var l, t, h := Scaled(lakhs, Lakh), Scaled(thousands, Thousand), Scaled(hundreds, Hundred);
    var res := Say(top, lakhs, Lakh, said);
    res := Say(res, thousands, Thousand, said + l);
    res := Say(res, hundreds, Hundred, said + l + t);
    GroupsPlain(said, lakhs, thousands, hundreds, rest);
    s := SayRest(res, rest, said + l + t + h);
  }

  lemma GroupsPlain(said: seq<Word>, lakhs: nat, thousands: nat, hundreds: nat, rest: nat)
    requires lakhs < 100 && thousands < 100 && hundreds < 100 && rest < 100 && Plain(said)
    ensures var l, t, h := Scaled(lakhs, Lakh), Scaled(thousands, Thousand), Scaled(hundreds, Hundred);
            var all := said + Groups(lakhs, thousands, hundreds, rest);
            said + l + t + h + TwoDigits(rest) == all && Plain(all)
  {
    Regroup(said, Scaled(lakhs, Lakh), Scaled(thousands, Thousand), Scaled(hundreds, Hundred), TwoDigits(rest));
    PlainGroups(lakhs, thousands, hundreds, rest);
    PlainAppend(said, Groups(lakhs, thousands, hundreds, rest));
  }

  /** Appends the last two digits and trims the text. */
  method SayRest(top: string, rest: nat, ghost said: seq<Word>) returns (s: string)
    requires rest < 100 && top == Spaced(Spelled(said))
    requires said + TwoDigits(rest) != [] && Plain(said + TwoDigits(rest))
    ensures s == Written(said + TwoDigits(rest))
  {
    Finished(said, TwoDigits(rest));
    var res := top;
    if rest > 0 {
      var last := InvTwo(rest);
      res := res + last;
    }
    s := Text.TrimSpace(res);
  }

  lemma Regroup(s: seq<Word>, a: seq<Word>, b: seq<Word>, c: seq<Word>, d: seq<Word>)
    ensures s + a + b + c + d == s + (a + b + c + d)
  {
  }

  lemma Finished(said: seq<Word>, rest: seq<Word>)
    requires said + rest != [] && Plain(said + rest)
    ensures rest != [] ==> Text.TrimSpace(Spaced(Spelled(said)) + Written(rest)) == Written(said + rest)
    ensures rest == [] ==> Text.TrimSpace(Spaced(Spelled(said))) == Written(said + rest)
  {
    SpelledSpaceless(said + rest);
    TrimSaid(Spelled(said + rest));
    SpelledAppend(said, rest);
    if rest == [] {
      assert said + rest == said;
    } else {
      JoinAppend(Spelled(said), Spelled(rest));
    }
  }

  method IntToIndianWords(n: nat) returns (s: string)
    ensures s == Written(Words(n))
    decreases n
  {
    if n == 0 {
      return "Zero";
    }
    var res, m := "", n;
    ghost var said: seq<Word> := [];
    if n / CRORE > 0 {
      var crores := IntToIndianWords(n / CRORE);
      res := res + (crores + " " + Spell(Crore) + " ");
      m := n % CRORE;
      CroresSaid(n / CRORE);
      said := Words(n / CRORE) + [Crore];
    }
    LastPart(n, m, said);
    s := SayGroups(res, m / LAKH, m % LAKH / 1000, m % 1000 / 100, m % 100, said);
  }

  lemma CroresSaid(k: nat)
    ensures "" + (Written(Words(k)) + " " + Spell(Crore) + " ") == Spaced(Spelled(Words(k) + [Crore]))
  {
    PlainWords(k);
    PhraseSaid([], Words(k), Crore);
    assert [] + (Words(k) + [Crore]) == Words(k) + [Crore];
  }

  /** What is said before the part below a crore, and that part, make the whole. */
  lemma Remainder(n: nat, said: seq<Word>)
    requires n > 0 && said == if n < CRORE then [] else Words(n / CRORE) + [Crore]
    ensures Plain(said) && said + BelowCrore(n % CRORE) == Words(n) && Words(n) != []
  {
    PlainWords(n);
    if n < CRORE {
      EmptyFirst(said, BelowCrore(n % CRORE));
    } else {
      PlainWords(n / CRORE);
      PlainAppend(Words(n / CRORE), [Crore]);
    }
  }

  lemma LastPart(n: nat, m: nat, said: seq<Word>)
    requires n > 0 && m == n % CRORE && said == if n < CRORE then [] else Words(n / CRORE) + [Crore]
    ensures m / LAKH < 100 && m % LAKH / 1000 < 100 && m % 1000 / 100 < 10
    ensures Plain(said) && said + BelowCrore(m) == Words(n) && Words(n) != []
  {
    DigitGroups(m);
    Remainder(n, said);
  }

  lemma EmptyFirst(none: seq<Word>, ws: seq<Word>)
    requires none == []
    ensures none + ws == ws
  {
  }

  /** Case-insensitive comparison with "USD", long s included. */
  predicate IsUsd(currency: string) {
    |currency| == 3 && currency[0] in {'U', 'u'} && currency[1] in {'S', 's', '\U{017F}'} && currency[2] in {'D', 'd'}
  }

  /** Splitting off the whole units first rounds the amount to the nearest cent. */
  lemma WholeAndCents(amount: real)
    requires amount >= 0.0
    ensures var whole := (amount + 0.000000001).Floor;
            var cents := Round((amount - whole as real) * 100.0);
            whole >= 0 && 0 <= cents <= 100 && whole * 100 + cents == Round(amount * 100.0)
  {
    var whole := (amount + 0.000000001).Floor;
    var x := (amount - whole as real) * 100.0;
    assert amount * 100.0 == x + (whole * 100) as real;
    if x >= 0.0 {
      RoundShift(x, whole * 100);
    } else {
      assert Round(x) == 0;
      assert Round(amount * 100.0) == whole * 100;
    }
  }

  function Unit(currency: string): Word {
    if IsUsd(currency) then Dollars else Rupees
  }

  function Subunit(currency: string): Word {
    if IsUsd(currency) then Cents else Paisa
  }

  /** The text of every non-negative amount reads back as the amount to the nearest cent. */
  method AmountInWords(amount: real, currency: string) returns (s: string)
    requires amount >= 0.0
    ensures s == Written(AmountWords(Round(amount * 100.0), Unit(currency), Subunit(currency)))
    ensures Amount(Parse(s)) == Round(amount * 100.0)
    ensures NamesCurrency(Parse(s), if IsUsd(currency) then Dollars else Rupees,
                          if IsUsd(currency) then Cents else Paisa, Round(amount * 100.0))
  {
    var whole := (amount + 0.000000001).Floor;
    var cents := Round((amount - whole as real) * 100.0);
    WholeAndCents(amount);
    if cents == 100 {
      whole, cents := whole + 1, 0;
    }
    s := Render(whole, cents, Unit(currency), Subunit(currency));
    AmountReadsBack(Round(amount * 100.0), whole, cents, Unit(currency), Subunit(currency));
    CurrencyIsNamed(Round(amount * 100.0), Unit(currency), Subunit(currency));
  }

  /** The amount ends in its currency, and in the smaller unit only when there is something of it; then in "Only". */
  predicate NamesCurrency(ws: seq<Word>, unit: Word, sub: Word, cents: int) {
    && |ws| >= 2 && ws[|ws| - 1] == Only
    && ws[|ws| - 2] == (if cents % 100 == 0 then unit else sub)
    && unit in ws
  }

  lemma CurrencyIsNamed(cents: nat, unit: Word, sub: Word)
    requires IsUnit(unit) && !sub.Number?
    ensures NamesCurrency(Parse(Written(AmountWords(cents, unit, sub))), unit, sub, cents)
  {
    AmountSpellable(cents, unit, sub);
    TextRoundTrip(AmountWords(cents, unit, sub));
    MinorEnds(cents % 100, sub);
    EndsInCurrency(Words(cents / 100), unit, MinorWords(cents % 100, sub), sub, cents);
  }

  predicate EndsIn(ws: seq<Word>, sub: Word) {
    |ws| >= 2 && ws[|ws| - 2] == sub && ws[|ws| - 1] == Only
  }

  lemma MinorEnds(minor: nat, sub: Word)
    ensures minor == 0 ==> MinorWords(minor, sub) == [Only]
    ensures minor != 0 ==> EndsIn(MinorWords(minor, sub), sub)
  {
  }

  lemma EndsInCurrency(major: seq<Word>, unit: Word, minor: seq<Word>, sub: Word, cents: nat)
    requires if cents % 100 == 0 then minor == [Only] else EndsIn(minor, sub)
    ensures NamesCurrency(major + [unit] + minor, unit, sub, cents)
  {
    var ws := major + [unit] + minor;
    assert ws[|major|] == unit;
  }

  lemma UsdIsDollars(currency: string)
    ensures currency == "USD" || currency == "usd" ==> IsUsd(currency)
    ensures currency == "INR" || currency == "EUR" || currency == "" ==> !IsUsd(currency)
  {
  }

  ghost function AmountText(whole: nat, cents: nat, unit: Word, sub: Word): string {
    if cents == 0 then Written(Words(whole)) + " " + Spell(unit) + " " + Spell(Only)
    else
      Written(Words(whole)) + " " + Spell(unit) + " " + Spell(And) + " " + Written(Words(cents)) + " " + Spell(sub)
      + " " + Spell(Only)
  }

  method Render(whole: nat, cents: nat, unit: Word, sub: Word) returns (s: string)
    ensures s == AmountText(whole, cents, unit, sub)
  {
    var major := IntToIndianWords(whole);
    s := major + " " + Spell(unit);
    if cents > 0 {
      var minor := IntToIndianWords(cents);
      s := s + " " + Spell(And) + " " + minor + " " + Spell(sub);
    }
    s := s + " " + Spell(Only);
  }

  lemma SpelledThen(ws: seq<Word>, w: Word)
    ensures Spelled(ws + [w]) == Spelled(ws) + [Spell(w)]
  {
    assert (ws + [w])[..|ws|] == ws;
  }

  lemma MinorRegroup(a: seq<Word>, minor: seq<Word>, sub: Word)
    ensures a + ([And] + minor + [sub, Only]) == a + [And] + minor + [sub] + [Only]
  {
  }

  lemma SpelledAmount(major: seq<Word>, unit: Word, minor: seq<Word>, sub: Word)
    requires major != [] && minor != []
    ensures Written(major + [unit] + [Only]) == Written(major) + " " + Spell(unit) + " " + Spell(Only)
    ensures Written(major + [unit] + ([And] + minor + [sub, Only]))
         == Written(major) + " " + Spell(unit) + " " + Spell(And) + " " + Written(minor) + " " + Spell(sub) + " " +
             Spell(Only)
  {
    var a, b := Spelled(major), Spelled(minor);
    SpelledThen(major, unit);
    SpelledThen(major + [unit], Only);
    SpelledThen(major + [unit], And);
    SpelledAppend(major + [unit] + [And], minor);
    SpelledThen(major + [unit] + [And] + minor, sub);
    SpelledThen(major + [unit] + [And] + minor + [sub], Only);
    MinorRegroup(major + [unit], minor, sub);
    AmountShape(a, Spell(unit), Spell(And), b, Spell(sub), Spell(Only));
  }

  lemma AmountReadsBack(total: nat, whole: nat, cents: nat, unit: Word, sub: Word)
    requires total == whole * 100 + cents && cents < 100 && IsUnit(unit) && !sub.Number?
    ensures AmountText(whole, cents, unit, sub) == Written(AmountWords(total, unit, sub))
    ensures Amount(Parse(AmountText(whole, cents, unit, sub))) == total
  {
    AmountSaid(total, whole, cents, unit, sub);
    AmountRoundTrip(total, unit, sub);
    AmountSpellable(total, unit, sub);
    TextRoundTrip(AmountWords(total, unit, sub));
  }

  lemma AmountSpellable(cents: nat, unit: Word, sub: Word)
    requires !unit.Number? && !sub.Number?
    ensures Spellable(AmountWords(cents, unit, sub))
  {
    PlainWords(cents / 100);
    PlainWords(cents % 100);
    SpellableAppend(Words(cents / 100), [unit]);
    SpellableAppend([And], Words(cents % 100));
    SpellableAppend([And] + Words(cents % 100), [sub, Only]);
    SpellableAppend(Words(cents / 100) + [unit], MinorWords(cents % 100, sub));
  }

  lemma SpellableAppend(a: seq<Word>, b: seq<Word>)
    requires Spellable(a) && Spellable(b)
    ensures Spellable(a + b)
  {
  }

  lemma AmountSaid(total: nat, whole: nat, cents: nat, unit: Word, sub: Word)
    requires total == whole * 100 + cents && cents < 100
    ensures Written(AmountWords(total, unit, sub)) == AmountText(whole, cents, unit, sub)
  {
    assert total / 100 == whole && total % 100 == cents;
    PlainWords(whole);
    PlainWords(cents);
    SpelledAmount(Words(whole), unit, Words(cents), sub);
  }
}
