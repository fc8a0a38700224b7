/**
 Supplier notes carry a country and a currency in front of the text, as a marked JSON object.
 Splitting takes the header off; merging replaces it.
 */
module Notes {
  import opened Options
  import Json
  import Text

  type Notes = Option<string>

  const MARK: string := "__currency_preferences__="
  const DEFAULT_COUNTRY: string := "United States"
  const DEFAULT_CURRENCY: string := "USD"
  const COUNTRY_KEY: string := "country"
  const CURRENCY_KEY: string := "currency"

  datatype Preference = Preference(country: string, currency: string)
  datatype Parts = Parts(preference: Preference, notes: Notes)

  // ---------- the header's object ----------

  function Quoted(s: string): string {
    ['"'] + Json.Escape(s) + ['"']
  }

  function Pair(key: string, s: string, rest: string): string {
    Quoted(key) + ([':'] + (Quoted(s) + rest))
  }

  function TwoPairs(a: string, s: string, b: string, t: string, rest: string): string {
    Pair(a, s, [','] + Pair(b, t, rest))
  }

  function Encode(p: Preference): string {
    ['{'] + TwoPairs(COUNTRY_KEY, p.country, CURRENCY_KEY, p.currency, ['}'])
  }

  /** Keys match without regard to case; null leaves a field alone; another type is an error. */
  function Assign(p: Preference, m: Json.Member): Option<Preference> {
    var key := Text.Lower(m.key);
    if key != COUNTRY_KEY && key != CURRENCY_KEY then Some(p)
    else
      match m.value
      case Text(s) => Some(if key == COUNTRY_KEY then p.(country := s) else p.(currency := s))
      case Null => Some(p)
      case OtherValue => None
  }

  function AssignAll(p: Preference, members: seq<Json.Member>): Option<Preference>
    decreases |members|
  {
    if members == [] then Some(p)
    else
      var q := Assign(p, members[0]);
      if q.None? then None else AssignAll(q.value, members[1..])
  }

  function Decode(s: string): Option<Preference> {
    var members := Json.ParseObject(s);
    if members.None? then None else AssignAll(Preference([], []), members.value)
  }

  // ---------- split and merge ----------

  /** The index of the first closing brace. */
  function Brace(s: string): (k: nat)
    requires '}' in s
    ensures k < |s| && s[k] == '}' && '}' !in s[..k]
  {
    if s[0] == '}' then 0 else 1 + Brace(s[1..])
  }

  predicate Marked(text: string) {
    MARK <= text && |text| > |MARK| && text[|MARK|] == '{' && '}' in text[|MARK|..]
  }

  /** The header's object: from its brace to the first closing brace. */
  function Object(text: string): string
    requires Marked(text)
  {
    text[|MARK|..|MARK| + Brace(text[|MARK|..]) + 1]
  }

  function AfterHeader(text: string): string
    requires Marked(text)
  {
    var rest := text[|MARK| + Brace(text[|MARK|..]) + 1..];
    if rest != [] && rest[0] == '\n' then rest[1..] else rest
  }

  function TrimBreaks(s: string): (r: string)
    ensures |r| <= |s|
    ensures r != [] ==> r[0] != '\r' && r[0] != '\n'
    ensures s != [] && s[0] != '\r' && s[0] != '\n' ==> r == s
  {
    if s != [] && (s[0] == '\r' || s[0] == '\n') then TrimBreaks(s[1..]) else s
  }

  function Body(text: string): Notes {
    var t := TrimBreaks(text);
    if t == [] then None else Some(t)
  }

  /** The stored preference; a blank or unreadable field falls back to its default. */
  function Read(header: string): Preference {
    var d := Decode(header);
    var p := if d.Some? then d.value else Preference([], []);
    Preference(if Text.Blank(p.country) then DEFAULT_COUNTRY else p.country,
               if Text.Blank(p.currency) then DEFAULT_CURRENCY else p.currency)
  }

  function Split(notes: Notes): Parts {
    if notes.None? || notes.value == [] then Parts(Preference(DEFAULT_COUNTRY, DEFAULT_CURRENCY), notes)
    else if Marked(notes.value) then Parts(Read(Object(notes.value)), Body(AfterHeader(notes.value)))
    else Parts(Preference(DEFAULT_COUNTRY, DEFAULT_CURRENCY), Body(notes.value))
  }

  /** The notes without their header; empty notes count as none. */
  function Clean(notes: Notes): (r: Notes)
    ensures r.Some? ==> r.value != [] && r.value[0] != '\r' && r.value[0] != '\n'
  {
    var r := Split(notes).notes;
    if r.Some? && r.value == [] then None else r
  }

  function Tail(clean: Notes): string {
    if clean.None? then [] else ['\n'] + clean.value
  }

  function Merge(notes: Notes, p: Preference): string {
    MARK + Encode(p) + Tail(Clean(notes))
  }

  // ---------- finding the header again ----------

  /** `x` reads from an opening brace to the first closing one. */
  predicate IsObject(x: string) {
    |x| >= 2 && x[0] == '{' && x[|x| - 1] == '}' && '}' !in x[..|x| - 1]
  }

  lemma BraceAt(s: string, k: nat)
    requires k < |s| && s[k] == '}' && '}' !in s[..k]
    ensures Brace(s) == k
  {
    assert Brace(s) < |s|;
  }

  lemma FindHeader(text: string, x: string, tail: string)
    requires IsObject(x) && text == MARK + x + tail
    ensures Marked(text) && Object(text) == x
    ensures AfterHeader(text) == if tail != [] && tail[0] == '\n' then tail[1..] else tail
  {
    var rest := text[|MARK|..];
    assert rest == x + tail;
    assert rest[|x| - 1] == '}' && rest[..|x| - 1] == x[..|x| - 1];
    BraceAt(rest, |x| - 1);
    assert text[|MARK|..|MARK| + |x|] == x;
    assert text[|MARK| + |x|..] == tail;
  }

  lemma SplitHeader(text: string, x: string, tail: string)
    requires IsObject(x) && text == MARK + x + tail
    ensures Split(Some(text))
         == Parts(Read(x), Body(if tail != [] && tail[0] == '\n' then tail[1..] else tail))
  {
    FindHeader(text, x, tail);
  }

  // ---------- the object reads back ----------

  lemma QuotedRoundTrip(s: string, rest: string)
    ensures Json.Unescape((Quoted(s) + rest)[1..]) == Json.Parsed(s, rest)
    ensures (Quoted(s) + rest)[0] == '"'
  {
    var after := ['"'] + rest;
    assert (Quoted(s) + rest)[1..] == Json.Escape(s) + after;
    Json.EscapeRoundTrip(s, after);
    assert after[1..] == rest;
    assert s + [] == s;
  }

  lemma MemberRoundTrip(key: string, s: string, rest: string)
    requires rest != [] && (rest[0] == ',' || rest[0] == '}')
    ensures Json.ParseMember(Pair(key, s, rest)) == Json.Parsed(Json.Member(key, Json.Text(s)), rest)
  {
    var value := Quoted(s) + rest;
    QuotedRoundTrip(key, [':'] + value);
    QuotedRoundTrip(s, rest);
    assert ([':'] + value)[1..] == value;
  }

  lemma MembersCons(s: string, m: Json.Member, more: string)
    requires Json.ParseMember(s) == Json.Parsed(m, [','] + more) && more != [] && more[0] == '"'
    ensures Json.ParseMembers(s)
         == var ms := Json.ParseMembers(more); if ms.None? then None else Some([m] + ms.value)
  {
    assert ([','] + more)[1..] == more;
  }

  lemma ObjectOf(s: string)
    requires s != [] && s[0] == '"'
    ensures Json.ParseObject(['{'] + s) == Json.ParseMembers(s)
  {
    assert (['{'] + s)[1..] == s;
  }

  lemma PairStarts(key: string, s: string, rest: string)
    ensures Pair(key, s, rest)[0] == '"'
  {
  }

  lemma LastMember(key: string, s: string)
    ensures Json.ParseMembers(Pair(key, s, ['}'])) == Some([Json.Member(key, Json.Text(s))])
  {
    MemberRoundTrip(key, s, ['}']);
  }

  lemma PairThen(a: string, s: string, more: string)
    requires more != [] && more[0] == '"'
    ensures Json.ParseMembers(Pair(a, s, [','] + more))
         == var ms := Json.ParseMembers(more); if ms.None? then None else Some([Json.Member(a, Json.Text(s))] +
             ms.value)
  {
    MemberRoundTrip(a, s, [','] + more);
    MembersCons(Pair(a, s, [','] + more), Json.Member(a, Json.Text(s)), more);
  }

  lemma TwoMembers(a: string, s: string, more: string, m: Json.Member)
    requires more != [] && more[0] == '"' && Json.ParseMembers(more) == Some([m])
    ensures Json.ParseMembers(Pair(a, s, [','] + more)) == Some([Json.Member(a, Json.Text(s)), m])
  {
    PairThen(a, s, more);
    assert [Json.Member(a, Json.Text(s))] + [m] == [Json.Member(a, Json.Text(s)), m];
  }

  lemma LowerIs(s: string)
    requires forall i :: 0 <= i < |s| ==> !('A' <= s[i] <= 'Z')
    ensures Text.Lower(s) == s
  {
  }

  lemma LowerKeys()
    ensures Text.Lower(COUNTRY_KEY) == COUNTRY_KEY && Text.Lower(CURRENCY_KEY) == CURRENCY_KEY
    ensures COUNTRY_KEY != CURRENCY_KEY
  {
    LowerCountry();
    LowerCurrency();
    assert |COUNTRY_KEY| == 7 && |CURRENCY_KEY| == 8;
  }

  lemma LowerCountry()
    ensures Text.Lower(COUNTRY_KEY) == COUNTRY_KEY
  {
    LowerIs(COUNTRY_KEY);
  }

  lemma LowerCurrency()
    ensures Text.Lower(CURRENCY_KEY) == CURRENCY_KEY
  {
    LowerIs(CURRENCY_KEY);
  }

  lemma AssignKeys(p: Preference, s: string)
    ensures Assign(p, Json.Member(COUNTRY_KEY, Json.Text(s))) == Some(p.(country := s))
    ensures Assign(p, Json.Member(CURRENCY_KEY, Json.Text(s))) == Some(p.(currency := s))
  {
    LowerKeys();
  }

  lemma AssignTwo(p: Preference, a: Json.Member, b: Json.Member, q: Preference, r: Preference)
    requires Assign(p, a) == Some(q) && Assign(q, b) == Some(r)
    ensures AssignAll(p, [a, b]) == Some(r)
  {
    assert [a, b][1..] == [b] && [b][1..] == [];
    assert AssignAll(q, [b]) == Some(r);
  }

  /** Every country and currency whatever, quotes and control characters included, decodes as encoded. */
  lemma DecodeRoundTrip(p: Preference)
    ensures Decode(Encode(p)) == Some(p)
  {
    var second := Pair(CURRENCY_KEY, p.currency, ['}']);
    PairStarts(CURRENCY_KEY, p.currency, ['}']);
    LastMember(CURRENCY_KEY, p.currency);
    TwoMembers(COUNTRY_KEY, p.country, second, Json.Member(CURRENCY_KEY, Json.Text(p.currency)));
    PairStarts(COUNTRY_KEY, p.country, [','] + second);
    ObjectOf(TwoPairs(COUNTRY_KEY, p.country, CURRENCY_KEY, p.currency, ['}']));
    var blank := Preference([], []);
    AssignKeys(blank, p.country);
    AssignKeys(blank.(country := p.country), p.currency);
    AssignTwo(blank, Json.Member(COUNTRY_KEY, Json.Text(p.country)), Json.Member(CURRENCY_KEY, Json.Text(p.currency)),
              blank.(country := p.country), p);
  }

  // ---------- when the header's object ends where it should ----------

  predicate NoBrace(p: Preference) {
    '}' !in p.country && '}' !in p.currency
  }

  lemma PairRest(key: string, s: string, a: string, b: string)
    ensures Pair(key, s, a + b) == Pair(key, s, a) + b
  {
    Json.Regroup(Quoted(s), a, b);
    Json.Regroup([':'], Quoted(s) + a, b);
    Json.Regroup(Quoted(key), [':'] + (Quoted(s) + a), b);
  }

  lemma PairBrace(key: string, s: string, rest: string)
    ensures '}' in Pair(key, s, rest) <==> '}' in key || '}' in s || '}' in rest
  {
    Json.EscapeKeeps(key);
    Json.EscapeKeeps(s);
  }

  lemma TwoPairsEnd(a: string, s: string, b: string, t: string, rest: string)
    ensures TwoPairs(a, s, b, t, rest) == TwoPairs(a, s, b, t, []) + rest
  {
    assert [] + rest == rest;
    PairRest(b, t, [], rest);
    Json.Regroup([','], Pair(b, t, []), rest);
    PairRest(a, s, [','] + Pair(b, t, []), rest);
  }

  lemma TwoPairsBrace(a: string, s: string, b: string, t: string)
    requires '}' !in a && '}' !in s && '}' !in b && '}' !in t
    ensures '}' !in TwoPairs(a, s, b, t, [])
  {
    PairBrace(b, t, []);
    PairBrace(a, s, [','] + Pair(b, t, []));
  }

  lemma Braced(inner: string)
    requires '}' !in inner
    ensures IsObject(['{'] + (inner + ['}']))
  {
    var x := ['{'] + (inner + ['}']);
    assert x[..|x| - 1] == ['{'] + inner;
  }

  lemma EncodeIsObject(p: Preference)
    requires NoBrace(p)
    ensures IsObject(Encode(p))
  {
    TwoPairsEnd(COUNTRY_KEY, p.country, CURRENCY_KEY, p.currency, ['}']);
    TwoPairsBrace(COUNTRY_KEY, p.country, CURRENCY_KEY, p.currency);
    Braced(TwoPairs(COUNTRY_KEY, p.country, CURRENCY_KEY, p.currency, []));
  }

  /** A member whose string the first closing brace cuts short. */
  function Cut(key: string, a: string): string {
    Quoted(key) + ([':'] + (['"'] + (Json.Escape(a) + ['}'])))
  }

  lemma CutFails(key: string, a: string)
    ensures Json.ParseMember(Cut(key, a)).Fail?
  {
    var value := ['"'] + (Json.Escape(a) + ['}']);
    QuotedRoundTrip(key, [':'] + value);
    Json.EscapeRoundTrip(a, ['}']);
    assert ([':'] + value)[1..] == value;
    assert value[1..] == Json.Escape(a) + ['}'];
    assert ['}'][1..] == [];
  }

  lemma SplitAround(s: string, k: nat)
    requires k < |s|
    ensures s == s[..k] + ([s[k]] + s[k + 1..])
  {
  }

  lemma EscapeCut(s: string) returns (a: string, z: string)
    requires '}' in s
    ensures '}' !in a && Json.Escape(s) == Json.Escape(a) + ['}'] + z
    ensures z != [] ==> z[0] != '\r' && z[0] != '\n'
  {
    var k := Brace(s);
    a := s[..k];
    var more := s[k + 1..];
    z := Json.Escape(more);
    SplitAround(s, k);
    Json.EscapeAppend(a, ['}'] + more);
    Json.EscapeFirst('}', more);
    Json.EscapeKeeps(more);
    Json.Regroup(Json.Escape(a), ['}'], z);
  }

  lemma Rebracketed(a: string, b: string, c: string, d: string, e: string, f: string)
    ensures a + (b + c + d) + e + f == (a + (b + c)) + (d + (e + f))
  {
  }

  /** A pair, cut at the first closing brace of its value. */
  lemma CutAt(key: string, s: string, rest: string) returns (a: string, tail: string)
    requires '}' in s
    ensures '}' !in a && Pair(key, s, rest) == Cut(key, a) + tail
    ensures tail != [] && tail[0] != '\r' && tail[0] != '\n'
  {
    var z;
    a, z := EscapeCut(s);
    tail := z + (['"'] + rest);
    var value := ['"'] + (Json.Escape(a) + ['}']);
    assert Quoted(s) == ['"'] + (Json.Escape(a) + ['}'] + z) + ['"'];
    Rebracketed(['"'], Json.Escape(a), ['}'], z, ['"'], rest);
    Json.Regroup([':'], value, tail);
    Json.Regroup(Quoted(key), [':'] + value, tail);
  }

  lemma BrokenFirst(a: string, s: string, rest: string) returns (x: string, tail: string)
    requires '}' in s && '}' !in a
    ensures ['{'] + Pair(a, s, rest) == x + tail && IsObject(x) && Json.ParseObject(x).None?
    ensures tail != [] && tail[0] != '\r' && tail[0] != '\n'
  {
    var front;
    front, tail := CutAt(a, s, rest);
    x := ['{'] + Cut(a, front);
    CutObject(a, front);
    Json.Regroup(['{'], Cut(a, front), tail);
  }

  lemma BrokenSecond(a: string, s: string, b: string, t: string, rest: string) returns (x: string, tail: string)
    requires '}' !in a && '}' !in s && '}' !in b && '}' in t
    ensures ['{'] + TwoPairs(a, s, b, t, rest) == x + tail && IsObject(x) && Json.ParseObject(x).None?
    ensures tail != [] && tail[0] != '\r' && tail[0] != '\n'
  {
    var front;
    front, tail := CutAt(b, t, rest);
    var inner := [','] + Cut(b, front);
    x := ['{'] + Pair(a, s, inner);
    CutSecond(a, s, b, front);
    Json.Regroup([','], Cut(b, front), tail);
    PairRest(a, s, inner, tail);
    Json.Regroup(['{'], Pair(a, s, inner), tail);
  }

  /** With a closing brace in either value the object is cut short, and what is left does not decode. */
  lemma BrokenObject(p: Preference) returns (x: string, tail: string)
    requires !NoBrace(p)
    ensures Encode(p) == x + tail && IsObject(x) && Decode(x).None?
    ensures tail != [] && tail[0] != '\r' && tail[0] != '\n'
  {
    if '}' in p.country {
      x, tail := BrokenFirst(COUNTRY_KEY, p.country, [','] + Pair(CURRENCY_KEY, p.currency, ['}']));
    } else {
      x, tail := BrokenSecond(COUNTRY_KEY, p.country, CURRENCY_KEY, p.currency, ['}']);
    }
  }

  lemma CutEnds(key: string, a: string) returns (front: string)
    requires '}' !in key && '}' !in a
    ensures Cut(key, a) == front + ['}'] && '}' !in front
    ensures Cut(key, a)[0] == '"'
  {
    Json.EscapeKeeps(key);
    Json.EscapeKeeps(a);
    front := Quoted(key) + ([':'] + (['"'] + Json.Escape(a)));
  }

  lemma CutObject(key: string, a: string)
    requires '}' !in key && '}' !in a
    ensures IsObject(['{'] + Cut(key, a)) && Json.ParseObject(['{'] + Cut(key, a)).None?
  {
    var front := CutEnds(key, a);
    Braced(front);
    CutFails(key, a);
    ObjectOf(Cut(key, a));
  }

  lemma CutSecond(key: string, s: string, second: string, a: string)
    requires '}' !in key && '}' !in s && '}' !in second && '}' !in a
    ensures var x := ['{'] + Pair(key, s, [','] + Cut(second, a));
            IsObject(x) && Json.ParseObject(x).None?
  {
    var front := CutEnds(second, a);
    Json.Regroup([','], front, ['}']);
    PairRest(key, s, [','] + front, ['}']);
    PairBrace(key, s, [','] + front);
    Braced(Pair(key, s, [','] + front));
    CutFails(second, a);
    PairThen(key, s, Cut(second, a));
    PairStarts(key, s, [','] + Cut(second, a));
    ObjectOf(Pair(key, s, [','] + Cut(second, a)));
  }

  // ---------- the laws ----------

  /** A value the header can carry. */
  predicate Storable(s: string) {
    !Text.Blank(s) && '}' !in s
  }

  lemma Defaults()
    ensures Storable(DEFAULT_COUNTRY) && Storable(DEFAULT_CURRENCY)
  {
    assert !Text.IsSpace(DEFAULT_COUNTRY[0]) && !Text.IsSpace(DEFAULT_CURRENCY[0]);
  }

  lemma ReadBack(p: Preference)
    ensures Read(Encode(p)) == p <==> !Text.Blank(p.country) && !Text.Blank(p.currency)
  {
    DecodeRoundTrip(p);
    Defaults();
  }

  lemma BodyOfTail(clean: Notes)
    requires clean.Some? ==> clean.value != [] && clean.value[0] != '\r' && clean.value[0] != '\n'
    ensures var tail := Tail(clean); Body(if tail != [] && tail[0] == '\n' then tail[1..] else tail) == clean
  {
  }

  /** Merging puts the header before the clean notes, where splitting finds it. */
  lemma SplitMerged(notes: Notes, p: Preference)
    requires NoBrace(p)
    ensures Split(Some(Merge(notes, p))) == Parts(Read(Encode(p)), Clean(notes))
  {
    EncodeIsObject(p);
    SplitHeader(Merge(notes, p), Encode(p), Tail(Clean(notes)));
    BodyOfTail(Clean(notes));
  }

  lemma Rebracket(a: string, b: string, c: string, d: string)
    ensures a + (b + c) + d == a + b + (c + d)
  {
  }

  lemma UnreadableObject(x: string)
    requires Decode(x).None?
    ensures Read(x) == Preference(DEFAULT_COUNTRY, DEFAULT_CURRENCY)
  {
  }

  /** Otherwise the defaults come back, and part of the header stays in front of the notes. */
  lemma SplitBroken(notes: Notes, p: Preference) returns (junk: string)
    requires !NoBrace(p)
    ensures junk != []
    ensures Split(Some(Merge(notes, p)))
         == Parts(Preference(DEFAULT_COUNTRY, DEFAULT_CURRENCY), Some(junk + Tail(Clean(notes))))
  {
    var x;
    x, junk := BrokenObject(p);
    var tail := junk + Tail(Clean(notes));
    Rebracket(MARK, x, junk, Tail(Clean(notes)));
    SplitHeader(Merge(notes, p), x, tail);
    UnreadableObject(x);
  }

  /**
   Splitting merged notes gives back the country, the currency and the clean notes, whatever
   the notes were: exactly when both values are not blank and hold no closing brace.
   */
  lemma SplitAfterMerge(notes: Notes, p: Preference)
    ensures Split(Some(Merge(notes, p))) == Parts(p, Clean(notes)) <==> Storable(p.country) && Storable(p.currency)
  {
    if NoBrace(p) {
      SplitMerged(notes, p);
      ReadBack(p);
    } else {
      var _ := SplitBroken(notes, p);
      Defaults();
    }
  }

  lemma MergeLonger(notes: Notes, other: Notes, junk: string, q: Preference)
    requires junk != [] && Clean(other) == Some(junk + Tail(Clean(notes)))
    ensures |Merge(other, q)| > |Merge(notes, q)|
  {
  }

  /** Merging again replaces the header, exactly when the first one held no closing brace of its own. */
  lemma MergeReplaces(notes: Notes, p: Preference, q: Preference)
    ensures Merge(Some(Merge(notes, p)), q) == Merge(notes, q) <==> NoBrace(p)
  {
    var merged := Merge(notes, p);
    if NoBrace(p) {
      SplitMerged(notes, p);
    } else {
      var junk := SplitBroken(notes, p);
      MergeLonger(notes, Some(merged), junk, q);
    }
  }

  /** Notes without a header keep their text and stand for the United States and its dollar. */
  lemma UnmarkedHasDefaults(notes: Notes)
    requires notes.Some? ==> !("__currency_preferences__=" <= notes.value)
    ensures Split(notes).preference == Preference("United States", "USD")
    ensures notes.Some? && notes.value != [] && notes.value[0] != '\r' && notes.value[0] != '\n' ==>
              Split(notes).notes == notes
  {
  }

  /** What is stored starts with the mark. */
  lemma MergedStartsWithTheMark(notes: Notes, p: Preference)
    ensures "__currency_preferences__=" <= Merge(notes, p)
  {
  }
}
