/**
 JSON as the program writes and reads it: string escaping per section 7 of RFC 8259, in the
 form Go's encoder chooses, and a decoder for an object with no object inside it.
 */
module Json {
  import opened Options

  datatype Parse<T> = Fail | Parsed(value: T, rest: string)

  // ---------- writing ----------

  function HexDigit(n: nat): char
    requires n < 16
  {
    if n < 10 then '0' + n as char else 'a' + (n - 10) as char
  }

  function Unicode(n: nat): string
    requires n < 0x10000
  {
    ['\\', 'u', HexDigit(n / 4096), HexDigit(n / 256 % 16), HexDigit(n / 16 % 16), HexDigit(n % 16)]
  }

  /** Besides what the standard demands, the characters that matter to HTML and JavaScript are escaped. */
  predicate Verbatim(c: char) {
    && c >= ' ' && c != '"' && c != '\\' && c != '<' && c != '>' && c != '&'
    && c != '\U{2028}' && c != '\U{2029}'
  }

  function EscapeChar(c: char): string {
    if Verbatim(c) then [c]
    else if c == '"' || c == '\\' then ['\\', c]
    else if c == '\U{0008}' then ['\\', 'b']
    else if c == '\U{000C}' then ['\\', 'f']
    else if c == '\n' then ['\\', 'n']
    else if c == '\r' then ['\\', 'r']
    else if c == '\t' then ['\\', 't']
    else Unicode(c as int)
  }

  function Escape(s: string): string {
    if s == [] then [] else EscapeChar(s[0]) + Escape(s[1..])
  }

  // ---------- reading strings ----------

  function HexValue(c: char): int {
    if '0' <= c <= '9' then c as int - '0' as int
    else if 'a' <= c <= 'f' then c as int - 'a' as int + 10
    else if 'A' <= c <= 'F' then c as int - 'A' as int + 10
    else -1
  }

  /** The code unit of a backslash-u escape at the head of `s`, which starts after the backslash. */
  function CodeUnit(s: string): (r: Option<nat>)
    ensures r.Some? ==> |s| >= 5 && r.value < 0x10000
  {
    if |s| < 5 || s[0] != 'u' then None
    else
      var a, b, c, d := HexValue(s[1]), HexValue(s[2]), HexValue(s[3]), HexValue(s[4]);
      if a < 0 || b < 0 || c < 0 || d < 0 then None else Some(4096 * a + 256 * b + 16 * c + d)
  }

  /** One escape, after its backslash; a lone surrogate becomes the replacement character. */
  function Escaped(s: string): (r: Parse<char>)
    ensures r.Parsed? ==> |r.rest| < |s|
  {
    if s == [] then Fail
    else if s[0] == '"' || s[0] == '\\' || s[0] == '/' then Parsed(s[0], s[1..])
    else if s[0] == 'b' then Parsed('\U{0008}', s[1..])
    else if s[0] == 'f' then Parsed('\U{000C}', s[1..])
    else if s[0] == 'n' then Parsed('\n', s[1..])
    else if s[0] == 'r' then Parsed('\r', s[1..])
    else if s[0] == 't' then Parsed('\t', s[1..])
    else
      match CodeUnit(s)
      case None => Fail
      case Some(n) =>
        if n < 0xD800 || 0xE000 <= n then Parsed(n as char, s[5..])
        else
          var low := if |s| > 6 && s[5] == '\\' then CodeUnit(s[6..]) else None;
          if n < 0xDC00 && low.Some? && 0xDC00 <= low.value < 0xE000
          then Parsed((0x10000 + (n - 0xD800) * 0x400 + (low.value - 0xDC00)) as char, s[11..])
          else Parsed('\U{FFFD}', s[5..])
  }

  function Prepend(c: char, p: Parse<string>): Parse<string> {
    if p.Fail? then Fail else Parsed([c] + p.value, p.rest)
  }

  /** The string whose opening quote has just been read; the rest starts after its closing quote. */
  function Unescape(s: string): (r: Parse<string>)
    ensures r.Parsed? ==> |r.rest| < |s|
    decreases |s|
  {
    if s == [] then Fail
    else if s[0] == '"' then Parsed([], s[1..])
    else if s[0] < ' ' then Fail
    else if s[0] != '\\' then Prepend(s[0], Unescape(s[1..]))
    else
      match Escaped(s[1..])
      case Fail => Fail
      case Parsed(c, rest) => Prepend(c, Unescape(rest))
  }

  // ---------- reading values ----------

  datatype Value = Text(text: string) | Null | OtherValue

  predicate IsDigit(c: char) {
    '0' <= c <= '9'
  }

  function SkipSpace(s: string): (r: string)
    ensures |r| <= |s|
  {
    if s != [] && (s[0] == ' ' || s[0] == '\t' || s[0] == '\n' || s[0] == '\r') then SkipSpace(s[1..]) else s
  }

  function SkipDigits(s: string): (r: string)
    ensures |r| <= |s|
  {
    if s != [] && IsDigit(s[0]) then SkipDigits(s[1..]) else s
  }

  /** At least one digit. */
  function Digits(s: string): (r: Parse<Value>)
    ensures r.Parsed? ==> |r.rest| < |s|
  {
    if s != [] && IsDigit(s[0]) then Parsed(OtherValue, SkipDigits(s[1..])) else Fail
  }

  function Fraction(s: string): (r: Parse<Value>)
    ensures r.Parsed? ==> |r.rest| <= |s|
  {
    if s != [] && s[0] == '.' then Digits(s[1..]) else Parsed(OtherValue, s)
  }

  function Exponent(s: string): (r: Parse<Value>)
    ensures r.Parsed? ==> |r.rest| <= |s|
  {
    if s == [] || (s[0] != 'e' && s[0] != 'E') then Parsed(OtherValue, s)
    else if |s| > 1 && (s[1] == '+' || s[1] == '-') then Digits(s[2..])
    else Digits(s[1..])
  }

  function Number(s: string): (r: Parse<Value>)
    ensures r.Parsed? ==> |r.rest| < |s|
  {
    var t := if s != [] && s[0] == '-' then s[1..] else s;
    var whole := if t != [] && t[0] == '0' then Parsed(OtherValue, t[1..]) else Digits(t);
    if whole.Fail? then Fail
    else
      var fraction := Fraction(whole.rest);
      if fraction.Fail? then Fail else Exponent(fraction.rest)
  }

  function Keyword(s: string, word: string, v: Value): (r: Parse<Value>)
    ensures r.Parsed? ==> |r.rest| <= |s| - |word|
  {
    if word <= s then Parsed(v, s[|word|..]) else Fail
  }

  /** A brace cannot open a value here: its closing brace would be the outer object's. */
  function ParseValue(s: string): (r: Parse<Value>)
    ensures r.Parsed? ==> |r.rest| < |s|
    decreases |s|, 0
  {
    if s == [] then Fail
    else if s[0] == '"' then
      var p := Unescape(s[1..]);
      if p.Fail? then Fail else Parsed(Text(p.value), p.rest)
    else if s[0] == 'n' then Keyword(s, "null", Null)
    else if s[0] == 't' then Keyword(s, "true", OtherValue)
    else if s[0] == 'f' then Keyword(s, "false", OtherValue)
    else if s[0] == '[' then
      var t := SkipSpace(s[1..]);
      if t != [] && t[0] == ']' then Parsed(OtherValue, t[1..]) else Elements(t)
    else Number(s)
  }

  function Elements(s: string): (r: Parse<Value>)
    ensures r.Parsed? ==> |r.rest| < |s|
    decreases |s|, 1
  {
    var p := ParseValue(s);
    if p.Fail? then Fail
    else
      var t := SkipSpace(p.rest);
      if t == [] then Fail
      else if t[0] == ']' then Parsed(OtherValue, t[1..])
      else if t[0] == ',' then Elements(SkipSpace(t[1..]))
      else Fail
  }

  datatype Member = Member(key: string, value: Value)

  /** A key, a colon and a value, with the space after it. */
  function ParseMember(s: string): (r: Parse<Member>)
    ensures r.Parsed? ==> |r.rest| < |s|
  {
    if s == [] || s[0] != '"' then Fail
    else
      var key := Unescape(s[1..]);
      if key.Fail? then Fail
      else
        var t := SkipSpace(key.rest);
        if t == [] || t[0] != ':' then Fail
        else
          var v := ParseValue(SkipSpace(t[1..]));
          if v.Fail? then Fail else Parsed(Member(key.value, v.value), SkipSpace(v.rest))
  }

  /** The members up to the closing brace, which ends the text. */
  function ParseMembers(s: string): Option<seq<Member>>
    decreases |s|
  {
    var m := ParseMember(s);
    if m.Fail? || m.rest == [] then None
    else if m.rest == ['}'] then Some([m.value])
    else if m.rest[0] != ',' then None
    else
      var more := ParseMembers(SkipSpace(m.rest[1..]));
      if more.None? then None else Some([m.value] + more.value)
  }

  function ParseObject(s: string): Option<seq<Member>> {
    if s == [] || s[0] != '{' then None
    else
      var t := SkipSpace(s[1..]);
      if t == ['}'] then Some([]) else ParseMembers(t)
  }

  // ---------- what is written is read back ----------

  function Prefixed(p: string, r: Parse<string>): Parse<string> {
    if r.Fail? then Fail else Parsed(p + r.value, r.rest)
  }

  lemma HexDigitValue(n: nat)
    requires n < 16
    ensures HexValue(HexDigit(n)) == n
  {
  }

  lemma HexSplit(n: nat)
    ensures n == 16 * (n / 16) + n % 16
    ensures n / 16 == 16 * (n / 256) + n / 16 % 16
    ensures n / 256 == 16 * (n / 4096) + n / 256 % 16
  {
    assert n / 16 / 16 == n / 256;
    assert n / 256 / 16 == n / 4096;
  }

  lemma CodeUnitOf(s: string, a: nat, b: nat, c: nat, d: nat)
    requires a < 16 && b < 16 && c < 16 && d < 16
    requires |s| >= 5 && s[0] == 'u' && s[1] == HexDigit(a) && s[2] == HexDigit(b) && s[3] == HexDigit(c)
    requires s[4] == HexDigit(d)
    ensures CodeUnit(s) == Some(4096 * a + 256 * b + 16 * c + d)
  {
    HexDigitValue(a);
    HexDigitValue(b);
    HexDigitValue(c);
    HexDigitValue(d);
  }

  lemma CodeUnitRoundTrip(n: nat, rest: string)
    requires n < 0x10000
    ensures CodeUnit(Unicode(n)[1..] + rest) == Some(n)
  {
    HexSplit(n);
    CodeUnitOf(Unicode(n)[1..] + rest, n / 4096, n / 256 % 16, n / 16 % 16, n % 16);
  }

  lemma UnicodeRoundTrip(c: char, rest: string)
    requires c as int < 0xD800
    ensures Unescape(Unicode(c as int) + rest) == Prepend(c, Unescape(rest))
  {
    var s := Unicode(c as int) + rest;
    CodeUnitRoundTrip(c as int, rest);
    assert s[1..] == Unicode(c as int)[1..] + rest;
    assert s[1..][5..] == rest;
    assert s[0] == '\\' && s[1..][0] == 'u';
    assert Escaped(s[1..]) == Parsed(c, rest);
  }

  lemma PairRoundTrip(c: char, e: char, rest: string)
    requires Escaped([e] + rest) == Parsed(c, rest)
    ensures Unescape(['\\', e] + rest) == Prepend(c, Unescape(rest))
  {
    var s := ['\\', e] + rest;
    assert s[0] == '\\' && s[1..] == [e] + rest;
  }

  lemma CharRoundTrip(c: char, rest: string)
    ensures Unescape(EscapeChar(c) + rest) == Prepend(c, Unescape(rest))
  {
    if Verbatim(c) {
      assert ([c] + rest)[1..] == rest;
    } else if |EscapeChar(c)| == 2 {
      var e := EscapeChar(c)[1];
      assert ([e] + rest)[1..] == rest;
      PairRoundTrip(c, e, rest);
    } else {
      UnicodeRoundTrip(c, rest);
    }
  }

  /** Reading past an escaped string gives the string and goes on with what follows. */
  lemma {:induction false} EscapeRoundTrip(p: string, rest: string)
    ensures Unescape(Escape(p) + rest) == Prefixed(p, Unescape(rest))
  {
    if p == [] {
      assert Escape(p) + rest == rest;
      assert Unescape(rest).Parsed? ==> p + Unescape(rest).value == Unescape(rest).value;
    } else {
      EscapeRoundTrip(p[1..], rest);
      CharRoundTrip(p[0], Escape(p[1..]) + rest);
      assert Escape(p) + rest == EscapeChar(p[0]) + (Escape(p[1..]) + rest);
      PrependPrefix(p, Unescape(rest));
    }
  }

  lemma PrependPrefix(p: string, r: Parse<string>)
    requires p != []
    ensures Prepend(p[0], Prefixed(p[1..], r)) == Prefixed(p, r)
  {
    assert p == [p[0]] + p[1..];
    if r.Parsed? {
      assert [p[0]] + (p[1..] + r.value) == p + r.value;
    }
  }

  lemma {:induction false} EscapeAppend(a: string, b: string)
    ensures Escape(a + b) == Escape(a) + Escape(b)
  {
    if a == [] {
      assert a + b == b;
    } else {
      EscapeAppend(a[1..], b);
      EscapeCons(a[0], a[1..], b);
      Regroup([a[0]], a[1..], b);
      assert a == [a[0]] + a[1..];
    }
  }

  lemma EscapeCons(c: char, t: string, b: string)
    requires Escape(t + b) == Escape(t) + Escape(b)
    ensures Escape([c] + (t + b)) == Escape([c] + t) + Escape(b)
  {
    EscapeFirst(c, t + b);
    EscapeFirst(c, t);
    Regroup(EscapeChar(c), Escape(t), Escape(b));
  }

  lemma EscapeFirst(c: char, s: string)
    ensures Escape([c] + s) == EscapeChar(c) + Escape(s)
  {
    assert ([c] + s)[1..] == s;
  }

  lemma Regroup(a: string, b: string, c: string)
    ensures a + (b + c) == (a + b) + c
  {
  }

  /** Escaping neither makes nor hides a closing brace, and leaves no raw line break. */
  lemma {:induction false} EscapeKeeps(p: string)
    ensures '}' in Escape(p) <==> '}' in p
    ensures '\n' !in Escape(p) && '\r' !in Escape(p)
  {
    if p != [] {
      EscapeKeeps(p[1..]);
      assert p == [p[0]] + p[1..];
    }
  }

  // ---------- what is written is safe to embed ----------

  predicate Safe(s: string) {
    forall i :: 0 <= i < |s| ==>
      s[i] >= ' ' && s[i] != '<' && s[i] != '>' && s[i] != '&' && s[i] != '\U{2028}' && s[i] != '\U{2029}'
  }

  lemma SafeChar(c: char)
    ensures Safe(EscapeChar(c))
  {
  }

  /** No escaped string holds a control character, markup, or a line separator of JavaScript. */
  lemma {:induction false} EscapedIsSafe(s: string)
    ensures Safe(Escape(s))
  {
    if s != [] {
      SafeChar(s[0]);
      EscapedIsSafe(s[1..]);
    }
  }
}
