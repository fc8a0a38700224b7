/** Words joined by single spaces into a text, and split out of it again. */
module Joining {
  import Text

  function Join(ws: seq<string>): string {
    if ws == [] then ""
    else if |ws| == 1 then ws[0]
    else Join(ws[..|ws| - 1]) + " " + ws[|ws| - 1]
  }

  predicate NoSpace(s: string) {
    s != [] && forall i :: 0 <= i < |s| ==> !Text.IsSpace(s[i])
  }

  predicate Spaceless(ws: seq<string>) {
    forall i :: 0 <= i < |ws| ==> NoSpace(ws[i])
  }

  /** The position of the last space, or -1. */
  function LastSpace(s: string): (k: int)
    ensures -1 <= k < |s|
    ensures k >= 0 ==> s[k] == ' '
    ensures forall i :: k < i < |s| ==> s[i] != ' '
  {
    if s == [] then -1 else if s[|s| - 1] == ' ' then |s| - 1 else LastSpace(s[..|s| - 1])
  }

  function Split(text: string): seq<string> {
    if text == [] then []
    else
      var k := LastSpace(text);
      if k < 0 then [text] else Split(text[..k]) + [text[k + 1..]]
  }

  lemma LastSpaceIs(text: string, k: nat)
    requires k < |text| && text[k] == ' ' && forall i :: k < i < |text| ==> text[i] != ' '
    ensures LastSpace(text) == k
  {
  }

  lemma Parts(a: string, b: string, i: nat)
    requires i < |b|
    ensures (a + " " + b)[|a|] == ' ' && (a + " " + b)[|a| + 1 + i] == b[i]
  {
  }

  lemma SpaceBetween(a: string, b: string)
    requires NoSpace(b)
    ensures var text := a + " " + b;
            text[|a|] == ' ' && forall i :: |a| < i < |text| ==> text[i] != ' '
  {
    var text := a + " " + b;
    Parts(a, b, 0);
    forall i | |a| < i < |text|
      ensures text[i] != ' '
    {
      Parts(a, b, i - |a| - 1);
      assert !Text.IsSpace(b[i - |a| - 1]);
    }
  }

  lemma LastSpaceAt(a: string, b: string)
    requires NoSpace(b)
    ensures LastSpace(a + " " + b) == |a|
  {
    SpaceBetween(a, b);
    LastSpaceIs(a + " " + b, |a|);
  }

  lemma SplitLast(a: string, w: string)
    requires NoSpace(w)
    ensures Split(a + " " + w) == Split(a) + [w]
  {
    var text := a + " " + w;
    LastSpaceAt(a, w);
    assert text[..|a|] == a && text[|a| + 1..] == w;
  }

  lemma SplitWord(w: string)
    requires NoSpace(w)
    ensures Split(w) == [w]
  {
    assert LastSpace(w) == -1;
  }

  /** Splitting undoes joining. */
  lemma {:induction false} SplitJoin(ws: seq<string>)
    requires Spaceless(ws)
    ensures Split(Join(ws)) == ws
  {
    if ws != [] {
      var rest, w := ws[..|ws| - 1], ws[|ws| - 1];
      assert NoSpace(w) && ws == rest + [w];
      if rest == [] {
        SplitWord(w);
      } else {
        SplitJoin(rest);
        SplitLast(Join(rest), w);
      }
    }
  }

  /** The words said so far, each followed by a space. */
  function Spaced(ws: seq<string>): string {
    if ws == [] then "" else Join(ws) + " "
  }

  lemma Assoc(a: string, b: string, c: string, d: string)
    ensures a + (b + c + d) == a + b + c + d
  {
  }

  lemma JoinThen(a: seq<string>, w: string)
    ensures Join(a + [w]) == Spaced(a) + w
  {
    assert (a + [w])[..|a|] == a;
  }

  lemma {:induction false} JoinAppend(a: seq<string>, b: seq<string>)
    requires b != []
    ensures Join(a + b) == Spaced(a) + Join(b)
  {
    var rest, w := b[..|b| - 1], b[|b| - 1];
    assert a + b == a + rest + [w];
    JoinThen(a + rest, w);
    if rest == [] {
      assert a + rest == a;
    } else {
      JoinAppend(a, rest);
      Assoc(Spaced(a), Join(rest), " ", w);
    }
  }

  lemma SpacedAppend(a: seq<string>, b: seq<string>)
    requires b != []
    ensures Spaced(a + b) == Spaced(a) + Spaced(b)
  {
    JoinAppend(a, b);
    Assoc3(Spaced(a), Join(b), " ");
  }

  lemma Assoc3(a: string, b: string, c: string)
    ensures a + (b + c) == a + b + c
  {
  }

  predicate Tight(s: string) {
    s != [] && !Text.IsSpace(s[0]) && !Text.IsSpace(s[|s| - 1])
  }

  lemma {:induction false} JoinIsTight(ws: seq<string>)
    requires Spaceless(ws) && ws != []
    ensures Tight(Join(ws))
  {
    assert NoSpace(ws[|ws| - 1]);
    if |ws| > 1 {
      JoinIsTight(ws[..|ws| - 1]);
    }
  }

  lemma TrimTight(s: string, pad: string)
    requires Tight(s) && (pad == "" || pad == " ")
    ensures Text.TrimSpace(s + pad) == s
  {
    var t := s + pad;
    assert !Text.IsSpace(t[0]);
    assert Text.TrimLeft(t) == t;
    var r := Text.TrimRight(t);
    assert !Text.IsSpace(t[|s| - 1]);
    assert |r| >= |s|;
    assert pad == " " ==> t[|s|] == ' ';
    assert r == s;
  }

  /** Trimming what was said so far leaves the joined words. */
  lemma TrimSaid(ws: seq<string>)
    requires Spaceless(ws) && ws != []
    ensures Text.TrimSpace(Spaced(ws)) == Join(ws) == Text.TrimSpace(Join(ws))
  {
    JoinIsTight(ws);
    TrimTight(Join(ws), " ");
    TrimTight(Join(ws), "");
    assert Join(ws) + "" == Join(ws);
  }

  lemma NoSpaceIsTight(a: string)
    requires NoSpace(a)
    ensures Tight(a)
  {
  }

  lemma AddNothing(s: string)
    ensures s + "" == s
  {
  }

  lemma TrimOne(a: string)
    requires NoSpace(a)
    ensures Text.TrimSpace(a + " " + "") == Join([a])
  {
    NoSpaceIsTight(a);
    TrimTight(a, " ");
    AddNothing(a + " ");
  }

  lemma TrimTwo(a: string, b: string)
    requires NoSpace(a) && NoSpace(b)
    ensures Text.TrimSpace(a + " " + b) == Join([a, b])
  {
    assert [a, b] == [a] + [b];
    JoinThen([a], b);
    TrimSaid([a, b]);
  }

  /** A phrase followed by one more word and a space. */
  lemma Phrase(a: seq<string>, group: seq<string>, w: string)
    requires group != []
    ensures Spaced(a + (group + [w])) == Spaced(a) + (Join(group) + " " + w + " ")
  {
    SpacedAppend(a, group + [w]);
    JoinThen(group, w);
  }

  /** The shape of an amount with its cents. */
  lemma AmountShape(major: seq<string>, unit: string, and: string, minor: seq<string>, sub: string, only: string)
    requires major != [] && minor != []
    ensures Join(major + [unit] + [only]) == Join(major) + " " + unit + " " + only
    ensures Join(major + [unit] + [and] + minor + [sub] + [only])
         == Join(major) + " " + unit + " " + and + " " + Join(minor) + " " + sub + " " + only
  {
    JoinThen(major, unit);
    JoinThen(major + [unit], only);
    JoinThen(major + [unit], and);
    JoinAppend(major + [unit] + [and], minor);
    JoinThen(major + [unit] + [and] + minor, sub);
    JoinThen(major + [unit] + [and] + minor + [sub], only);
  }
}
