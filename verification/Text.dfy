/** The string operations of the host language that the model relies on. */
module Text {

  datatype Option<+T> = None | Some(value: T)

  /** Characters that `str.strip` removes. */
  predicate IsSpace(c: char) {
    '\t' <= c <= '\r' || '\U{1C}' <= c <= ' ' || c == '\U{85}' || c == '\U{A0}' || c == '\U{1680}' ||
    '\U{2000}' <= c <= '\U{200A}' || c == '\U{2028}' || c == '\U{2029}' || c == '\U{202F}' ||
    c == '\U{205F}' || c == '\U{3000}'
  }

  predicate Blank(s: string) {
    forall i :: 0 <= i < |s| ==> IsSpace(s[i])
  }

  function LStrip(s: string): (r: string)
    ensures |r| <= |s| && r == s[|s| - |r|..]
    ensures forall i :: 0 <= i < |s| - |r| ==> IsSpace(s[i])
    ensures r != "" ==> !IsSpace(r[0])
    ensures r == "" <==> Blank(s)
    decreases |s|
  {
    if s != "" && IsSpace(s[0]) then LStrip(s[1..]) else s
  }

  function RStrip(s: string): (r: string)
    ensures r <= s
    ensures r != "" ==> !IsSpace(r[|r| - 1])
    ensures forall i :: |r| <= i < |s| ==> IsSpace(s[i])
    decreases |s|
  {
    if s != "" && IsSpace(s[|s| - 1]) then RStrip(s[..|s| - 1]) else s
  }

  function Strip(s: string): (r: string)
    ensures r == "" <==> Blank(s)
    ensures r != "" ==> !IsSpace(r[0]) && !IsSpace(r[|r| - 1])
  {
    var l := LStrip(s);
    var r := RStrip(l);
    assert r != "" ==> r[0] == l[0];
    assert Blank(l) ==> l == "";
    r
  }

  lemma LStripParts(s: string) returns (a: string)
    ensures s == a + LStrip(s) && Blank(a)
  {
    a := s[..|s| - |LStrip(s)|];
  }

  lemma RStripParts(s: string) returns (b: string)
    ensures s == RStrip(s) + b && Blank(b)
  {
    b := s[|RStrip(s)|..];
  }

  /** Stripping takes blanks from both ends and nothing else. */
  lemma StripParts(s: string) returns (a: string, b: string)
    ensures s == a + Strip(s) + b && Blank(a) && Blank(b)
  {
    a := LStripParts(s);
    b := RStripParts(LStrip(s));
    Assoc(a, Strip(s), b);
  }

  lemma SpaceChars(c: char)
    ensures IsSpace(c) <==>
      c in "\t\n\U{0B}\U{0C}\r\U{1C}\U{1D}\U{1E}\U{1F} \U{85}\U{A0}\U{1680}\U{2000}\U{2001}\U{2002}\U{2003}\U{2004}" ||
      c in "\U{2005}\U{2006}\U{2007}\U{2008}\U{2009}\U{200A}\U{2028}\U{2029}\U{202F}\U{205F}\U{3000}"
  {
  }

  lemma {:induction false} RStripSpaces(a: string, b: string)
    requires Blank(b)
    ensures RStrip(a + b) == RStrip(a)
    decreases |b|
  {
    if b == "" {
      assert a + b == a;
    } else {
      var s := a + b;
      assert s[|s| - 1] == b[|b| - 1] && s[..|s| - 1] == a + b[..|b| - 1];
      RStripSpaces(a, b[..|b| - 1]);
    }
  }

  lemma {:induction false} LStripSpaces(a: string, b: string)
    requires Blank(a)
    ensures LStrip(a + b) == LStrip(b)
    decreases |a|
  {
    if a == "" {
      assert a + b == b;
    } else {
      assert (a + b)[1..] == a[1..] + b;
      LStripSpaces(a[1..], b);
    }
  }

  lemma StripIndent(pad: string, s: string)
    requires Blank(pad)
    ensures Strip(pad + s) == Strip(s)
  {
    LStripSpaces(pad, s);
  }

  /** Padding on the left of a text that neither begins nor ends with a space. */
  lemma StripPadding(pad: string, s: string)
    requires Blank(pad) && s != "" && !IsSpace(s[0]) && !IsSpace(s[|s| - 1])
    ensures Strip(pad + s) == s
  {
    LStripSpaces(pad, s);
  }

  // ---------- lines ----------

  predicate OneLine(s: string) {
    '\n' !in s
  }

  predicate OneLiners(lines: seq<string>) {
    forall i :: 0 <= i < |lines| ==> OneLine(lines[i])
  }

  function JoinLines(lines: seq<string>): string
    requires lines != []
  {
    if |lines| == 1 then lines[0] else lines[0] + "\n" + JoinLines(lines[1..])
  }

  function SplitLines(s: string): (lines: seq<string>)
    ensures lines != []
  {
    if s == "" then [""]
    else
      var rest := SplitLines(s[1..]);
      if s[0] == '\n' then [""] + rest else [[s[0]] + rest[0]] + rest[1..]
  }

  lemma {:induction false} SplitOneLiners(s: string)
    ensures OneLiners(SplitLines(s))
  {
    if s != "" {
      SplitOneLiners(s[1..]);
    }
  }

  lemma {:induction false} SplitFirst(a: string, b: string)
    requires OneLine(a)
    ensures SplitLines(a + "\n" + b) == [a] + SplitLines(b)
  {
    var s := a + "\n" + b;
    if a == "" {
      assert s[1..] == b;
    } else {
      assert s[1..] == a[1..] + "\n" + b;
      SplitFirst(a[1..], b);
      assert s[0] == a[0] && s[0] in a;
      assert [a[0]] + a[1..] == a;
    }
  }

  lemma {:induction false} SplitOne(a: string)
    requires OneLine(a)
    ensures SplitLines(a) == [a]
  {
    if a != "" {
      assert a[0] in a && [a[0]] + a[1..] == a;
      SplitOne(a[1..]);
    }
  }

  lemma {:induction false} SplitJoin(lines: seq<string>)
    requires lines != [] && OneLiners(lines)
    ensures SplitLines(JoinLines(lines)) == lines
  {
    if |lines| == 1 {
      SplitOne(lines[0]);
    } else {
      SplitJoin(lines[1..]);
      SplitFirst(lines[0], JoinLines(lines[1..]));
    }
  }

  lemma {:induction false} JoinSplit(s: string)
    ensures JoinLines(SplitLines(s)) == s
  {
    if s != "" {
      var rest := SplitLines(s[1..]);
      JoinSplit(s[1..]);
      assert s == [s[0]] + s[1..];
      if s[0] == '\n' {
        assert ([""] + rest)[1..] == rest;
      } else {
        assert ([[s[0]] + rest[0]] + rest[1..])[1..] == rest[1..];
        JoinFirst(s[0], rest);
      }
    }
  }

  lemma JoinFirst(c: char, lines: seq<string>)
    requires lines != []
    ensures JoinLines([[c] + lines[0]] + lines[1..]) == [c] + JoinLines(lines)
  {
    var more := [[c] + lines[0]] + lines[1..];
    assert more[1..] == lines[1..];
    if |lines| > 1 {
      assert [c] + lines[0] + "\n" + JoinLines(lines[1..]) == [c] + (lines[0] + "\n" + JoinLines(lines[1..]));
    }
  }

  lemma {:induction false} JoinConcat(a: seq<string>, b: seq<string>)
    requires a != [] && b != []
    ensures JoinLines(a + b) == JoinLines(a) + "\n" + JoinLines(b)
  {
    if |a| == 1 {
      assert (a + b)[1..] == b;
    } else {
      assert (a + b)[1..] == a[1..] + b;
      JoinConcat(a[1..], b);
    }
  }

  // ---------- parts and lists ----------

  predicate BeginsAt(part: string, text: string, i: nat) {
    i + |part| <= |text| && text[i..i + |part|] == part
  }

  predicate Occurs(part: string, text: string) {
    exists i: nat :: i <= |text| && BeginsAt(part, text, i)
  }

  lemma OccursIn(a: string, part: string, b: string)
    ensures Occurs(part, a + part + b)
  {
    assert BeginsAt(part, a + part + b, |a|);
  }

  lemma SliceOfSlice(s: string, a: nat, b: nat, i: nat, j: nat)
    requires a <= b <= |s| && i <= j <= b - a
    ensures s[a..b][i..j] == s[a + i..a + j]
  {
    forall k | 0 <= k < j - i ensures s[a..b][i..j][k] == s[a + i..a + j][k] {
      assert s[a..b][i + k] == s[a + i + k];
    }
  }

  lemma OccursWithin(part: string, inner: string, outer: string)
    requires Occurs(part, inner) && Occurs(inner, outer)
    ensures Occurs(part, outer)
  {
    var i: nat :| i <= |inner| && BeginsAt(part, inner, i);
    var j: nat :| j <= |outer| && BeginsAt(inner, outer, j);
    SliceOfSlice(outer, j, j + |inner|, i, i + |part|);
    assert BeginsAt(part, outer, j + i);
  }

  lemma {:induction false} LineOccurs(lines: seq<string>, i: nat)
    requires i < |lines|
    ensures Occurs(lines[i], JoinLines(lines))
    decreases |lines|
  {
    if |lines| == 1 {
      assert BeginsAt(lines[0], JoinLines(lines), 0);
    } else if i == 0 {
      assert BeginsAt(lines[0], JoinLines(lines), 0);
    } else {
      LineOccurs(lines[1..], i - 1);
      var front, rest := lines[0] + "\n", JoinLines(lines[1..]);
      assert JoinLines(lines) == front + rest + "";
      OccursIn(front, rest, "");
      OccursWithin(lines[i], rest, JoinLines(lines));
    }
  }

  lemma Assoc<T>(a: seq<T>, b: seq<T>, c: seq<T>)
    ensures a + (b + c) == a + b + c
  {
  }

  lemma FirstOf<T>(a: seq<T>, b: seq<T>)
    requires a != []
    ensures (a + b)[0] == a[0] && (a + b)[1..] == a[1..] + b
  {
  }

  /** The elements with a property, in their order. */
  function Where<T>(s: seq<T>, p: T -> bool): seq<T> {
    if s == [] then [] else (if p(s[0]) then [s[0]] else []) + Where(s[1..], p)
  }

  lemma {:induction false} WhereConcat<T>(a: seq<T>, b: seq<T>, p: T -> bool)
    ensures Where(a + b, p) == Where(a, p) + Where(b, p)
  {
    if a == [] {
      assert a + b == b;
    } else {
      FirstOf(a, b);
      WhereConcat(a[1..], b, p);
      Assoc(if p(a[0]) then [a[0]] else [], Where(a[1..], p), Where(b, p));
    }
  }

  lemma {:induction false} WhereNone<T>(s: seq<T>, p: T -> bool)
    requires forall i :: 0 <= i < |s| ==> !p(s[i])
    ensures Where(s, p) == []
  {
    if s != [] {
      WhereNone(s[1..], p);
    }
  }

  lemma {:induction false} WhereAll<T>(s: seq<T>, p: T -> bool)
    requires forall i :: 0 <= i < |s| ==> p(s[i])
    ensures Where(s, p) == s
  {
    if s != [] {
      WhereAll(s[1..], p);
    }
  }

  /** What follows the first colon. */
  function AfterColon(s: string): string {
    if s == "" then "" else if s[0] == ':' then s[1..] else AfterColon(s[1..])
  }

  lemma {:induction false} AfterPrefix(name: string, rest: string)
    requires ':' !in name
    ensures AfterColon(name + ":" + rest) == rest
  {
    var s := name + ":" + rest;
    if name == "" {
      assert s[1..] == rest;
    } else {
      assert name[0] in name;
      assert s[1..] == name[1..] + ":" + rest;
      AfterPrefix(name[1..], rest);
    }
  }

  // ---------- decimal numbers ----------

  const DECIMALS := "0123456789"

  function Digits(n: nat): (s: string)
    ensures s != "" && forall i :: 0 <= i < |s| ==> '0' <= s[i] <= '9'
  {
    if n < 10 then [DECIMALS[n]] else Digits(n / 10) + [DECIMALS[n % 10]]
  }

  /** The value of a digit string; None for anything else. */
  function Number(s: string): Option<nat> {
    if s == "" || !('0' <= s[|s| - 1] <= '9') then None
    else
      var low := s[|s| - 1] as int - '0' as int;
      if |s| == 1 then Some(low)
      else match Number(s[..|s| - 1])
        case None => None
        case Some(high) => Some(10 * high + low)
  }

  lemma DecimalValue(d: nat)
    requires d < 10
    ensures '0' <= DECIMALS[d] <= '9' && DECIMALS[d] as int - '0' as int == d
  {
  }

  lemma {:induction false} NumberOfDigits(n: nat)
    ensures Number(Digits(n)) == Some(n)
  {
    if n >= 10 {
      NumberOfDigits(n / 10);
      var s, high := Digits(n), Digits(n / 10);
      assert s == high + [DECIMALS[n % 10]];
      assert s[..|s| - 1] == high && s[|s| - 1] == DECIMALS[n % 10];
      DecimalValue(n % 10);
    } else {
      DecimalValue(n);
    }
  }
}
