/** On files made of entry blocks and blank lines, the writer's locator and the reader's
    parser agree on every block boundary, so upserts and removals have exactly the effect
    on what is read that they are meant to have. */
module DailyArchive {
  import opened Text
  import opened EntryCodec
  import opened DailyFile

  /** A file as its writer sees it: blank lines and entries, each with its block. */
  datatype Item = Gap | Filed(entry: Entry, block: seq<string>)

  function ItemLines(item: Item): seq<string> {
    match item
    case Gap => [""]
    case Filed(_, block) => block
  }

  function Flat(items: seq<Item>): seq<string> {
    if items == [] then [] else ItemLines(items[0]) + Flat(items[1..])
  }

  /** What the writer files: the block built for the entry. */
  predicate Genuine(item: Item) {
    item.Filed? ==> Sane(item.entry) && item.block == BlockLines(item.entry)
  }

  predicate Sound(items: seq<Item>) {
    forall i {:trigger Genuine(items[i])} :: 0 <= i < |items| ==> Genuine(items[i])
  }

  lemma SoundTail(items: seq<Item>)
    requires items != [] && Sound(items)
    ensures Sound(items[1..]) && Genuine(items[0])
  {
    forall i | 0 <= i < |items[1..]| ensures Genuine(items[1..][i]) {
      assert Genuine(items[i + 1]);
    }
  }

  /** All that the layout of a file depends on. */
  predicate Framed(item: Item) {
    item.Filed? ==>
      && |item.block| >= 2 && OneLiners(item.block)
      && item.block[0] == "---" && item.block[|item.block| - 1] == "---"
  }

  predicate AllFramed(items: seq<Item>) {
    forall i :: 0 <= i < |items| ==> Framed(items[i])
  }

  predicate Lists(items: seq<Item>, id: nat) {
    exists i :: 0 <= i < |items| && items[i].Filed? && items[i].entry.id == id
  }

  /** At most one block per id. */
  predicate Unique(items: seq<Item>) {
    forall i, j :: 0 <= i < j < |items| && items[i].Filed? && items[j].Filed? ==> items[i].entry.id != items[j].entry.id
  }

  lemma {:induction false} FlatConcat(a: seq<Item>, b: seq<Item>)
    ensures Flat(a + b) == Flat(a) + Flat(b)
  {
    if a == [] {
      assert a + b == b;
    } else {
      assert (a + b)[1..] == a[1..] + b;
      FlatConcat(a[1..], b);
    }
  }

  // ---------- the block holds the whole entry ----------

  lemma QuotedSame(front: string, a: string, b: string)
    requires front + a + "\"" == front + b + "\""
    ensures a == b
  {
    var x, y := front + a + "\"", front + b + "\"";
    assert a == x[|front|..|x| - 1] && b == y[|front|..|y| - 1];
  }

  lemma IndentedSame(a: seq<string>, b: seq<string>)
    requires Indented(a) == Indented(b)
    ensures a == b
  {
    forall i | 0 <= i < |a| ensures a[i] == b[i] {
      assert Indented(a)[i] == "  " + a[i] && Indented(b)[i] == "  " + b[i];
      assert a[i] == ("  " + a[i])[2..] && b[i] == ("  " + b[i])[2..];
    }
  }

  lemma MessageSame(a: string, b: string)
    requires Indented(SplitLines(a)) == Indented(SplitLines(b))
    ensures a == b
  {
    IndentedSame(SplitLines(a), SplitLines(b));
    JoinSplit(a);
    JoinSplit(b);
  }

  lemma LinesSame(a: Entry, b: Entry)
    requires Sane(a) && Sane(b) && BuildBlock(a) == BuildBlock(b)
    ensures BlockLines(a) == BlockLines(b)
  {
    var x, y := JoinLines(BlockLines(a)), JoinLines(BlockLines(b));
    assert x == BuildBlock(a)[..|BuildBlock(a)| - 2] && y == BuildBlock(b)[..|BuildBlock(b)| - 2];
    BlockOneLiners(a);
    BlockOneLiners(b);
    SplitJoin(BlockLines(a));
    SplitJoin(BlockLines(b));
  }

  lemma BlockParts(e: Entry)
    ensures BlockLines(e)[..7] == Heading(e) && BlockLines(e)[7..|BlockLines(e)| - 1] == Indented(SplitLines(e.message))
  {
  }

  /** Nothing of an entry is lost in its block: different entries have different blocks. */
  lemma BlockDetermines(a: Entry, b: Entry)
    requires Sane(a) && Sane(b) && BuildBlock(a) == BuildBlock(b)
    ensures a == b
  {
    LinesSame(a, b);
    BlockParts(a);
    BlockParts(b);
    HeadingSame(a, b);
    MessageSame(a.message, b.message);
  }

  lemma HeadingSame(a: Entry, b: Entry)
    requires Heading(a) == Heading(b)
    ensures a.id == b.id && a.time == b.time && a.session == b.session && a.userCall == b.userCall
  {
    var h, g := Heading(a), Heading(b);
    assert h[1] == g[1] && h[2] == g[2] && h[3] == g[3] && h[4] == g[4];
    IdLineParsed(a.id);
    IdLineParsed(b.id);
    QuotedSame("日期: \"", a.time, b.time);
    QuotedSame("session_id: \"", a.session, b.session);
    CallLineDecoded(a.userCall);
    CallLineDecoded(b.userCall);
  }

  lemma HeadingOneLiners(e: Entry)
    requires Sane(e)
    ensures OneLiners(Heading(e))
  {
    EncodeOneLine(e.userCall);
    assert OneLine(Digits(e.id));
  }

  lemma BlockOneLiners(e: Entry)
    requires Sane(e)
    ensures OneLiners(BlockLines(e))
  {
    HeadingOneLiners(e);
    SplitOneLiners(e.message);
  }

  lemma GenuineFramed(item: Item)
    requires Genuine(item)
    ensures Framed(item)
  {
    if item.Filed? {
      BlockOneLiners(item.entry);
    }
  }

  lemma SoundFramed(items: seq<Item>)
    requires Sound(items)
    ensures AllFramed(items)
  {
    forall i | 0 <= i < |items| ensures Framed(items[i]) {
      GenuineFramed(items[i]);
    }
  }

  lemma {:induction false} FlatOneLiners(items: seq<Item>)
    requires AllFramed(items)
    ensures OneLiners(Flat(items))
  {
    if items != [] {
      FlatOneLiners(items[1..]);
    }
  }

  // ---------- the reader sees blocks ----------

  lemma {:induction false} ScanConcat(r: Reader, a: seq<string>, b: seq<string>)
    ensures Scan(r, a + b) == Scan(Scan(r, a), b)
    decreases |a|
  {
    if a == [] {
      assert a + b == b;
    } else {
      assert (a + b)[1..] == a[1..] + b;
      ScanConcat(Step(r, a[0]), a[1..], b);
    }
  }

  predicate Idle(r: Reader) {
    r == START.(result := r.result)
  }

  function CapturedAll(lines: seq<string>, more: seq<string>): seq<string>
    decreases |more|
  {
    if more == [] then lines else CapturedAll(Captured(lines, more[0]), more[1..])
  }

  function Trimmed(lines: seq<string>): (r: seq<string>)
    ensures |r| == |lines| && forall i :: 0 <= i < |r| ==> r[i] == Strip(lines[i])
  {
    seq(|lines|, i requires 0 <= i < |lines| => Strip(lines[i]))
  }

  predicate NotEmpty(line: string) {
    line != ""
  }

  /** The lines that are not blank, each trimmed. */
  function BodyLines(lines: seq<string>): seq<string> {
    if lines == [] then []
    else (if Blank(lines[0]) then [] else [Strip(lines[0])]) + BodyLines(lines[1..])
  }

  function Body(message: string): string {
    var lines := BodyLines(SplitLines(message));
    if lines == [] then "" else JoinLines(lines)
  }

  /** What a reader is meant to return for an entry: its message without blank lines and
      indentation, shortened. */
  function SummaryOf(e: Entry): string {
    Abridged(Body(e.message))
  }

  /** Where a long text is cut: at the last line break before 500 characters, or at 500 if
      there is none behind the first 200. */
  predicate CutAt(text: string, cut: nat) {
    |text| > 500 && cut <= 500 &&
    if exists i :: 200 <= i < 500 && text[i] == '\n' then
      200 <= cut < 500 && text[cut] == '\n' && forall i :: cut < i < 500 ==> text[i] != '\n'
    else cut == 500
  }

  lemma {:induction false} LastNewlineIs(s: string, limit: nat)
    requires limit <= |s|
    ensures var r := LastNewline(s, limit);
            (r >= 0 ==> s[r] == '\n') && forall i :: r < i < limit ==> s[i] != '\n'
  {
    if limit > 0 && s[limit - 1] != '\n' {
      LastNewlineIs(s, limit - 1);
    }
  }

  /** The summary is the text of all lines that are not blank, trimmed and in order; a long
      one is cut at a line break and says how long it was. */
  lemma SummaryIs(e: Entry) returns (cut: nat)
    ensures var lines := Where(Trimmed(SplitLines(e.message)), NotEmpty);
            var text := if lines == [] then "" else JoinLines(lines);
            if |text| <= 500 then SummaryOf(e) == text
            else CutAt(text, cut) && SummaryOf(e) == text[..cut] + "……（共" + Digits(|text|) + "字）"
  {
    BodyLinesAre(SplitLines(e.message));
    var text := Body(e.message);
    cut := 0;
    if |text| > 500 {
      LastNewlineIs(text, 500);
      var last := LastNewline(text, 500);
      cut := if last < 200 then 500 else last;
    }
  }

  lemma {:induction false} BodyLinesAre(lines: seq<string>)
    ensures BodyLines(lines) == Where(Trimmed(lines), NotEmpty)
  {
    if lines != [] {
      TrimmedFirst(lines);
      BodyLinesAre(lines[1..]);
    }
  }

  lemma TrimmedFirst(lines: seq<string>)
    requires lines != []
    ensures Trimmed(lines) != [] && Trimmed(lines)[0] == Strip(lines[0]) && Trimmed(lines)[1..] == Trimmed(lines[1..])
  {
    var a, b := Trimmed(lines)[1..], Trimmed(lines[1..]);
    assert |a| == |b| && forall i :: 0 <= i < |a| ==> a[i] == b[i];
  }

  lemma {:induction false} CapturedBody(done: seq<string>, lines: seq<string>)
    ensures CapturedAll(done, Indented(lines)) == done + BodyLines(lines)
    decreases |lines|
  {
    if lines == [] {
      assert done + [] == done;
    } else {
      var front := if Blank(lines[0]) then [] else [Strip(lines[0])];
      CapturedOne(done, lines);
      CapturedBody(done + front, lines[1..]);
      Assoc(done, front, BodyLines(lines[1..]));
    }
  }

  lemma CapturedOne(done: seq<string>, lines: seq<string>)
    requires lines != []
    ensures var front := if Blank(lines[0]) then [] else [Strip(lines[0])];
            CapturedAll(done, Indented(lines)) == CapturedAll(done + front, Indented(lines[1..]))
  {
    IndentedFirst(lines);
    StripIndent("  ", lines[0]);
    assert done + [] == done;
  }

  lemma IndentedFirst(lines: seq<string>)
    requires lines != []
    ensures Indented(lines)[0] == "  " + lines[0] && Indented(lines)[1..] == Indented(lines[1..])
  {
  }

  predicate Tight(s: string) {
    s != "" && !IsSpace(s[0]) && !IsSpace(s[|s| - 1])
  }

  predicate AllTight(lines: seq<string>) {
    forall i :: 0 <= i < |lines| ==> Tight(lines[i])
  }

  lemma TightFirst(line: string, lines: seq<string>)
    requires Tight(line) && AllTight(lines)
    ensures AllTight([line] + lines)
  {
  }

  lemma {:induction false} JoinTight(lines: seq<string>)
    requires lines != [] && AllTight(lines)
    ensures Tight(JoinLines(lines))
  {
    if |lines| > 1 {
      JoinTight(lines[1..]);
      var a, b := lines[0], JoinLines(lines[1..]);
      assert JoinLines(lines)[0] == a[0] && JoinLines(lines)[|a| + 1 + |b| - 1] == b[|b| - 1];
    }
  }

  lemma {:induction false} BodyTight(lines: seq<string>)
    ensures AllTight(BodyLines(lines))
  {
    if lines != [] {
      BodyTight(lines[1..]);
      if !Blank(lines[0]) {
        TightFirst(Strip(lines[0]), BodyLines(lines[1..]));
      } else {
        assert [] + BodyLines(lines[1..]) == BodyLines(lines[1..]);
      }
    }
  }

  /** The reader's own captured lines come to just that. */
  lemma ReaderSummary(message: string)
    ensures Finalize(CapturedAll([], Indented(SplitLines(message)))) == Abridged(Body(message))
  {
    var lines := BodyLines(SplitLines(message));
    CapturedBody([], SplitLines(message));
    assert [] + lines == lines;
    BodyTight(SplitLines(message));
    if lines != [] {
      JoinTight(lines);
      StripTight(JoinLines(lines));
    }
  }

  lemma StripTight(s: string)
    requires Tight(s)
    ensures Strip(s) == s
  {
    StripPadding("", s);
    assert "" + s == s;
  }

  /** A line is told apart from a literal by its first character. */
  lemma Differs(raw: string, literal: string)
    requires raw != "" && literal != "" && raw[0] != literal[0]
    ensures raw != literal && !StartsWith(raw, literal)
  {
  }

  predicate Insignificant(c: char) {
    c != '-' && c != 'I' && c != 'u' && c != 'm'
  }

  /** A line beginning with none of the significant characters: captured or ignored. */
  lemma StepOther(r: Reader, raw: string)
    requires r.inBlock && !r.inUserCall && raw != "" && Insignificant(raw[0])
    ensures Step(r, raw) == if r.capture then r.(lines := Captured(r.lines, raw)) else r
  {
    Differs(raw, "---");
    Differs(raw, "ID:");
    Differs(raw, "user_call:");
    Differs(raw, "message:");
  }

  lemma {:induction false} ScanMessage(r: Reader, lines: seq<string>)
    requires r.inBlock && r.capture && !r.inUserCall
    requires forall i :: 0 <= i < |lines| ==> lines[i] != "" && lines[i][0] == ' '
    ensures Scan(r, lines) == r.(lines := CapturedAll(r.lines, lines))
    decreases |lines|
  {
    if lines != [] {
      assert lines[0][0] == ' ';
      StepOther(r, lines[0]);
      ScanMessage(r.(lines := Captured(r.lines, lines[0])), lines[1..]);
    }
  }

  lemma TrimQuoted(d: string)
    requires d != "" && d[0] != '"' && d[|d| - 1] != '"'
    ensures TrimQuotes("\"" + d + "\"") == d
  {
    var quoted := "\"" + d + "\"";
    assert quoted[1..] == d + "\"";
    var half := d + "\"";
    assert half[0] == d[0] && half[|half| - 1] == '"' && half[..|half| - 1] == d;
    assert TrimQuotes(half) == TrimQuotes(d);
  }

  lemma IdLineParsed(id: nat)
    ensures Number(TrimQuotes(Strip(AfterColon(IdLine(id))))) == Some(id)
  {
    var d := Digits(id);
    var quoted := "\"" + d + "\"";
    assert IdLine(id) == "ID" + ":" + (" " + quoted);
    AfterPrefix("ID", " " + quoted);
    StripPadding(" ", quoted);
    TrimQuoted(d);
    NumberOfDigits(id);
  }

  lemma CallLineDecoded(userCall: string)
    ensures Decode(AfterColon(CallLine(userCall))) == Some(userCall)
  {
    var line, value := CallLine(userCall), Encode(userCall);
    AfterPrefix("user_call", " " + value);
    assert line == "user_call" + ":" + (" " + value);
    DecodeEncode(" ", userCall);
  }

  lemma StepId(r: Reader, id: nat)
    requires r.inBlock && !r.inUserCall
    ensures Step(r, IdLine(id)) == r.(current := Some(id))
  {
    IdLineParsed(id);
    Differs(IdLine(id), "---");
    assert StartsWith(IdLine(id), "ID:");
  }

  lemma StepCall(r: Reader, userCall: string)
    requires r.inBlock && !r.inUserCall
    ensures Step(r, CallLine(userCall)) == r
  {
    CallLineDecoded(userCall);
    Differs(CallLine(userCall), "---");
    Differs(CallLine(userCall), "ID:");
    assert StartsWith(CallLine(userCall), "user_call:");
  }

  lemma StepMessageLine(r: Reader)
    requires r.inBlock && !r.inUserCall
    ensures Step(r, MESSAGE_LINE) == r.(capture := true)
  {
    Differs(MESSAGE_LINE, "---");
    Differs(MESSAGE_LINE, "ID:");
    Differs(MESSAGE_LINE, "user_call:");
    assert StartsWith(MESSAGE_LINE, "message:");
  }

  /** The date, session and weight lines say nothing to the reader. */
  lemma StepIgnored(r: Reader, e: Entry)
    requires r.inBlock && !r.inUserCall && !r.capture
    ensures Step(r, Heading(e)[2]) == r && Step(r, Heading(e)[3]) == r && Step(r, Heading(e)[5]) == r
  {
    var date, session := "日期: \"" + e.time + "\"", "session_id: \"" + e.session + "\"";
    assert date[0] == '日' && session[0] == 's' && WEIGHT_LINE[0] == 'w';
    StepOther(r, date);
    StepOther(r, session);
    StepOther(r, WEIGHT_LINE);
  }

  lemma ScanHeading(r: Reader, e: Entry)
    requires Idle(r)
    ensures Scan(r, Heading(e)) == r.(inBlock := true, current := Some(e.id), capture := true)
  {
    var r1 := r.(inBlock := true);
    var r2 := r1.(current := Some(e.id));
    assert Step(r, "---") == r1;
    StepId(r1, e.id);
    StepIgnored(r2, e);
    StepCall(r2, e.userCall);
    StepMessageLine(r2);
    ScanSeven(r, r1, r2, r2.(capture := true), Heading(e));
  }

  lemma ScanSeven(r: Reader, r1: Reader, r2: Reader, r3: Reader, h: seq<string>)
    requires |h| == 7 && Step(r, h[0]) == r1 && Step(r1, h[1]) == r2
    requires Step(r2, h[2]) == r2 && Step(r2, h[3]) == r2 && Step(r2, h[4]) == r2 && Step(r2, h[5]) == r2
    requires Step(r2, h[6]) == r3
    ensures Scan(r, h) == r3
  {
    assert h[6..][0] == h[6] && h[6..][1..] == [];
    assert Scan(r2, h[6..]) == Scan(r3, []);
    forall i | 2 <= i < 6 ensures h[i..][0] == h[i] && h[i..][1..] == h[i + 1..] {}
    assert Scan(r2, h[5..]) == Scan(r2, h[6..]);
    assert Scan(r2, h[4..]) == Scan(r2, h[5..]);
    assert Scan(r2, h[3..]) == Scan(r2, h[4..]);
    assert Scan(r2, h[2..]) == Scan(r2, h[3..]);
    assert h[1..][0] == h[1] && h[1..][1..] == h[2..];
  }

  /** Reading one block files its summary, unless the id was there before. */
  lemma ScanBlock(r: Reader, e: Entry)
    requires Idle(r)
    ensures Scan(r, BlockLines(e)) == r.(result := Recorded(r.result, Some(e.id), SummaryOf(e)))
  {
    var body := Indented(SplitLines(e.message));
    assert BlockLines(e) == Heading(e) + (body + ["---"]);
    ScanConcat(r, Heading(e), body + ["---"]);
    ScanHeading(r, e);
    var inside := r.(inBlock := true, current := Some(e.id), capture := true);
    ScanConcat(inside, body, ["---"]);
    ScanMessage(inside, body);
    ReaderSummary(e.message);
    var full := inside.(lines := CapturedAll([], body));
    assert ["---"][1..] == [];
    assert Scan(full, ["---"]) == Step(full, "---");
  }

  /** Text outside of blocks says nothing to the reader. */
  lemma {:induction false} OutsideIgnored(r: Reader, lines: seq<string>)
    requires !r.inBlock && !r.inUserCall && "---" !in lines
    ensures Scan(r, lines) == r
    decreases |lines|
  {
    if lines != [] {
      assert lines[0] in lines;
      OutsideIgnored(r, lines[1..]);
    }
  }

  /** A block that is still open at the end of the file is read all the same. */
  lemma ReadOpenBlock(e: Entry)
    ensures ReadLines(Heading(e) + Indented(SplitLines(e.message))) == map[e.id := SummaryOf(e)]
  {
    var body := Indented(SplitLines(e.message));
    ScanConcat(START, Heading(e), body);
    ScanHeading(START, e);
    ScanMessage(START.(inBlock := true, current := Some(e.id), capture := true), body);
    ReaderSummary(e.message);
  }

  /** The last character is a quote without a backslash in front of it. */
  predicate ClosedByQuote(s: string) {
    s != "" && s[|s| - 1] == '"' && (|s| > 1 ==> s[|s| - 2] != '\\')
  }

  lemma QuoteClosedIs(s: string)
    ensures QuoteClosed(s) <==> ClosedByQuote(s)
  {
    if |s| > 1 {
      assert s[|s| - 2..] == [s[|s| - 2], s[|s| - 1]];
    }
    if s != "" {
      assert s[|s| - 1..] == [s[|s| - 1]];
    }
  }

  /** A call text in the old form: its first line is not JSON and not closed, the next line
      that is closed ends it. */
  predicate OldCall(first: string, inner: seq<string>, last: string) {
    && "user_call:" <= first && Decode(AfterColon(first)).None? && !ClosedByQuote(RStrip(first))
    && (forall i :: 0 <= i < |inner| ==> !ClosedByQuote(inner[i])) && ClosedByQuote(last)
  }

  lemma {:induction false} ScanInside(r: Reader, inner: seq<string>)
    requires r.inUserCall && forall i :: 0 <= i < |inner| ==> !ClosedByQuote(inner[i])
    ensures Scan(r, inner) == r
    decreases |inner|
  {
    if inner != [] {
      QuoteClosedIs(inner[0]);
      ScanInside(r, inner[1..]);
    }
  }

  lemma ClosedNotBlank(s: string)
    requires ClosedByQuote(s)
    ensures Strip(s) != "" && RStrip(s) != ""
  {
    assert !IsSpace(s[|s| - 1]);
  }

  lemma OldCallOpens(r: Reader, first: string)
    requires r.inBlock && !r.inUserCall
    requires "user_call:" <= first && Decode(AfterColon(first)).None? && !ClosedByQuote(RStrip(first))
    ensures Step(r, first) == r.(inUserCall := true)
  {
    assert first[0] == 'u';
    Differs(first, "---");
    Differs(first, "ID:");
    QuoteClosedIs(RStrip(first));
  }

  /** Such a text says nothing to the reader, whatever its lines look like. */
  lemma OldCallRead(r: Reader, first: string, inner: seq<string>, last: string)
    requires r.inBlock && !r.inUserCall && OldCall(first, inner, last)
    ensures Scan(r, [first] + inner + [last]) == r
  {
    var inside := r.(inUserCall := true);
    OldCallOpens(r, first);
    ScanConcat(r, [first] + inner, [last]);
    ScanConcat(r, [first], inner);
    assert [first][1..] == [] && Scan(r, [first]) == Scan(Step(r, first), []);
    ScanInside(inside, inner);
    QuoteClosedIs(last);
    ClosedNotBlank(last);
    assert [last][1..] == [] && Scan(inside, [last]) == Scan(Step(inside, last), []);
  }

  lemma {:induction false} EndInside(lines: seq<string>, j: nat, k: nat)
    requires j <= k < |lines| && ClosedByQuote(lines[k])
    requires forall i :: j <= i < k ==> !ClosedByQuote(lines[i])
    ensures BlockEnd(lines, j, true) == BlockEnd(lines, k + 1, false)
    decreases k - j
  {
    QuoteClosedIs(lines[j]);
    if j < k {
      EndInside(lines, j + 1, k);
    } else {
      ClosedNotBlank(lines[k]);
    }
  }

  /** And the locator passes over it just so. */
  lemma OldCallLocated(lines: seq<string>, j: nat, k: nat)
    requires j < k < |lines| && "user_call:" <= lines[j] && !ClosedByQuote(RStrip(lines[j])) && ClosedByQuote(lines[k])
    requires forall i :: j < i < k ==> !ClosedByQuote(lines[i])
    ensures BlockEnd(lines, j, false) == BlockEnd(lines, k + 1, false)
  {
    assert lines[j][0] == 'u';
    Differs(lines[j], "---");
    QuoteClosedIs(RStrip(lines[j]));
    EndInside(lines, j + 1, k);
  }

  /** The locator finds the first separator that this id follows, at any place in the file. */
  lemma {:induction false} LocateFirst(lines: seq<string>, i: nat, id: nat, at: nat)
    requires i <= at && at + 1 < |lines| && lines[at] == "---" && lines[at + 1] == "ID: \"" + Digits(id) + "\""
    requires forall k :: i <= k < at ==> !(lines[k] == "---" && lines[k + 1] == "ID: \"" + Digits(id) + "\"")
    ensures Locate(lines, i, id) == Some((at, BlockEnd(lines, at + 2, false)))
    decreases at - i
  {
    if i < at {
      LocateFirst(lines, i + 1, id, at);
    }
  }

  function Filing(result: map<nat, string>, items: seq<Item>): map<nat, string>
    decreases |items|
  {
    if items == [] then result
    else match items[0]
      case Gap => Filing(result, items[1..])
      case Filed(e, _) => Filing(Recorded(result, Some(e.id), SummaryOf(e)), items[1..])
  }

  lemma {:induction false} ScanItems(r: Reader, items: seq<Item>)
    requires Idle(r) && Sound(items)
    ensures Scan(r, Flat(items)) == r.(result := Filing(r.result, items))
    decreases |items|
  {
    if items != [] {
      SoundTail(items);
      ScanItem(r, items[0]);
      ScanConcat(r, ItemLines(items[0]), Flat(items[1..]));
      ScanItems(r.(result := Filing(r.result, [items[0]])), items[1..]);
    }
  }

  lemma ScanItem(r: Reader, item: Item)
    requires Idle(r) && Genuine(item)
    ensures Scan(r, ItemLines(item)) == r.(result := Filing(r.result, [item]))
  {
    match item {
      case Gap =>
        assert [""][1..] == [];
        assert Scan(r, [""]) == Step(r, "");
      case Filed(e, _) =>
        ScanBlock(r, e);
    }
  }

  /** The meaning of a file: the summary of each entry. */
  function Meaning(items: seq<Item>): map<nat, string> {
    Filing(map[], items)
  }

  lemma ReadFlat(items: seq<Item>)
    requires Sound(items)
    ensures ReadLines(Flat(items)) == Meaning(items)
  {
    ScanItems(START, items);
  }

  function FiledFirst(result: map<nat, string>, item: Item): map<nat, string> {
    match item
    case Gap => result
    case Filed(e, _) => Recorded(result, Some(e.id), SummaryOf(e))
  }

  lemma ListsSplit(items: seq<Item>, id: nat)
    requires items != []
    ensures Lists(items, id) <==> (items[0].Filed? && items[0].entry.id == id) || Lists(items[1..], id)
  {
    if Lists(items[1..], id) {
      var i :| 0 <= i < |items[1..]| && items[1..][i].Filed? && items[1..][i].entry.id == id;
      assert items[i + 1] == items[1..][i];
    }
    if Lists(items, id) {
      var i :| 0 <= i < |items| && items[i].Filed? && items[i].entry.id == id;
      assert i > 0 ==> items[1..][i - 1] == items[i];
    }
  }

  lemma {:induction false} FilingMember(result: map<nat, string>, items: seq<Item>, id: nat)
    ensures id in Filing(result, items) <==> id in result || Lists(items, id)
    ensures id in result ==> Filing(result, items)[id] == result[id]
    decreases |items|
  {
    if items != [] {
      FilingMember(FiledFirst(result, items[0]), items[1..], id);
      ListsSplit(items, id);
    }
  }

  /** With at most one block per id every entry is filed under its own summary. */
  lemma {:induction false} FilingValue(result: map<nat, string>, items: seq<Item>, i: nat)
    requires Unique(items) && i < |items| && items[i].Filed? && items[i].entry.id !in result
    ensures items[i].entry.id in Filing(result, items)
    ensures Filing(result, items)[items[i].entry.id] == SummaryOf(items[i].entry)
    decreases |items|
  {
    var next, rest := FiledFirst(result, items[0]), items[1..];
    if i == 0 {
      FiledAtOnce(result, items[0]);
      FilingMember(next, rest, items[0].entry.id);
    } else {
      UniqueRest(items, i);
      FiledOther(result, items[0], items[i].entry.id);
      FilingValue(next, rest, i - 1);
    }
  }

  lemma UniqueRest(items: seq<Item>, i: nat)
    requires Unique(items) && 0 < i < |items| && items[i].Filed?
    ensures Unique(items[1..]) && items[1..][i - 1] == items[i]
    ensures items[0].Filed? ==> items[0].entry.id != items[i].entry.id
  {
  }

  lemma FiledAtOnce(result: map<nat, string>, item: Item)
    requires item.Filed? && item.entry.id !in result
    ensures item.entry.id in FiledFirst(result, item)
    ensures FiledFirst(result, item)[item.entry.id] == SummaryOf(item.entry)
  {
  }

  lemma FiledOther(result: map<nat, string>, item: Item, id: nat)
    requires id !in result && (item.Filed? ==> item.entry.id != id)
    ensures id !in FiledFirst(result, item)
  {
  }

  // ---------- the locator sees the same blocks ----------

  predicate At(lines: seq<string>, i: nat, part: seq<string>) {
    i + |part| <= |lines| && lines[i..i + |part|] == part
  }

  lemma AtIndex(lines: seq<string>, i: nat, part: seq<string>, k: nat)
    requires At(lines, i, part) && k < |part|
    ensures lines[i + k] == part[k]
  {
    assert lines[i..i + |part|][k] == lines[i + k];
  }

  lemma IdLineInjective(a: nat, b: nat)
    requires IdLine(a) == IdLine(b)
    ensures a == b
  {
    IdLineParsed(a);
    IdLineParsed(b);
  }

  lemma BlockInner(e: Entry, k: nat)
    requires 1 <= k < |BlockLines(e)| - 1
    ensures BlockLines(e)[k] != "---"
    ensures StartsWith(BlockLines(e)[k], "user_call:") ==> k == 4
  {
    var b, h := BlockLines(e), Heading(e);
    if k < 7 {
      assert b[k] == h[k];
      assert h[1][0] == 'I' && h[2][0] == '日' && h[3][0] == 's' && h[4][0] == 'u' && h[5][0] == 'w' && h[6][0] == 'm';
    } else {
      assert b[k] == Indented(SplitLines(e.message))[k - 7];
      assert b[k][0] == ' ';
    }
  }

  /** From line `from` on only the last line can end the block or open a value. */
  predicate Quiet(b: seq<string>, from: nat) {
    && b != [] && b[|b| - 1] == "---"
    && forall k :: from <= k < |b| - 1 ==> b[k] != "---" && !StartsWith(b[k], "user_call:")
  }

  /** Message lines up to the closing line. */
  lemma {:induction false} EndFrom(lines: seq<string>, i: nat, b: seq<string>, k: nat)
    requires At(lines, i, b) && Quiet(b, 5) && 5 <= k < |b|
    ensures BlockEnd(lines, i + k, false) == i + |b|
    decreases |b| - k
  {
    AtIndex(lines, i, b, k);
    if k < |b| - 1 {
      EndFrom(lines, i, b, k + 1);
    }
  }

  lemma BlockQuiet(e: Entry)
    ensures Quiet(BlockLines(e), 5)
  {
    var b := BlockLines(e);
    forall k | 5 <= k < |b| - 1 ensures b[k] != "---" && !StartsWith(b[k], "user_call:") {
      BlockInner(e, k);
    }
  }

  lemma WeightLineCloses()
    ensures QuoteClosed(WEIGHT_LINE) && Strip(WEIGHT_LINE) != ""
  {
    assert WEIGHT_LINE[|WEIGHT_LINE| - 1..] == "\"" && WEIGHT_LINE[|WEIGHT_LINE| - 2..] == "0\"";
    assert WEIGHT_LINE[0] == 'w' && !Blank(WEIGHT_LINE);
  }

  /** Wherever the value ends, even in a backslash, the weight line brings the locator
      back into step. */
  lemma EndAfterCall(lines: seq<string>, i: nat, e: Entry, open: bool)
    requires At(lines, i, BlockLines(e))
    ensures BlockEnd(lines, i + 5, open) == i + |BlockLines(e)|
  {
    AtIndex(lines, i, BlockLines(e), 5);
    assert BlockLines(e)[5] == WEIGHT_LINE;
    WeightLineCloses();
    BlockQuiet(e);
    if open {
      EndFrom(lines, i, BlockLines(e), 6);
    } else {
      EndFrom(lines, i, BlockLines(e), 5);
    }
  }

  lemma EndOfBlock(lines: seq<string>, i: nat, e: Entry)
    requires At(lines, i, BlockLines(e))
    ensures BlockEnd(lines, i + 2, false) == i + |BlockLines(e)|
  {
    var b := BlockLines(e);
    AtIndex(lines, i, b, 2);
    AtIndex(lines, i, b, 3);
    AtIndex(lines, i, b, 4);
    BlockInner(e, 2);
    BlockInner(e, 3);
    BlockInner(e, 4);
    EndAfterCall(lines, i, e, true);
    EndAfterCall(lines, i, e, false);
    assert BlockEnd(lines, i + 4, false) == i + |b|;
    assert BlockEnd(lines, i + 3, false) == BlockEnd(lines, i + 4, false);
  }

  /** No line inside a block, nor its closing line, opens the block of another id. */
  lemma NotOpened(lines: seq<string>, i: nat, e: Entry, id: nat, k: nat)
    requires At(lines, i, BlockLines(e)) && e.id != id && k < |BlockLines(e)|
    requires i + |BlockLines(e)| < |lines| ==> lines[i + |BlockLines(e)|] == "" || lines[i + |BlockLines(e)|] == "---"
    ensures !Opens(lines, i + k, id)
  {
    var b := BlockLines(e);
    AtIndex(lines, i, b, k);
    if k == 0 {
      AtIndex(lines, i, b, 1);
      assert b[1] == IdLine(e.id);
      if IdLine(e.id) == IdLine(id) {
        IdLineInjective(e.id, id);
      }
    } else if k < |b| - 1 {
      BlockInner(e, k);
    } else {
      assert IdLine(id)[0] == 'I';
    }
  }

  lemma {:induction false} SkipBlock(lines: seq<string>, i: nat, e: Entry, id: nat, k: nat)
    requires At(lines, i, BlockLines(e)) && e.id != id && k <= |BlockLines(e)|
    requires i + |BlockLines(e)| < |lines| ==> lines[i + |BlockLines(e)|] == "" || lines[i + |BlockLines(e)|] == "---"
    ensures Locate(lines, i + k, id) == Locate(lines, i + |BlockLines(e)|, id)
    decreases |BlockLines(e)| - k
  {
    var n := |BlockLines(e)|;
    if k < n {
      NotOpened(lines, i, e, id, k);
      SkipBlock(lines, i, e, id, k + 1);
      assert Locate(lines, i + k, id) == Locate(lines, i + k + 1, id);
    }
  }

  lemma FlatStart(items: seq<Item>)
    requires items != [] && AllFramed(items)
    ensures Flat(items) != [] && (Flat(items)[0] == "" || Flat(items)[0] == "---")
  {
  }

  lemma ItemAt(lines: seq<string>, i: nat, items: seq<Item>)
    requires i <= |lines| && items != [] && lines[i..] == Flat(items)
    ensures At(lines, i, ItemLines(items[0]))
    ensures lines[i + |ItemLines(items[0])|..] == Flat(items[1..])
  {
    var part := ItemLines(items[0]);
    assert lines[i..][..|part|] == part && lines[i..][|part|..] == Flat(items[1..]);
    assert lines[i..i + |part|] == lines[i..][..|part|];
    assert lines[i + |part|..] == lines[i..][|part|..];
  }

  lemma ListsTail(items: seq<Item>, id: nat)
    requires items != [] && Lists(items[1..], id)
    ensures Lists(items, id)
  {
    var k :| 0 <= k < |items[1..]| && items[1..][k].Filed? && items[1..][k].entry.id == id;
    assert items[k + 1] == items[1..][k];
  }

  lemma SkipItem(lines: seq<string>, i: nat, items: seq<Item>, id: nat)
    requires i <= |lines| && items != [] && lines[i..] == Flat(items) && Sound(items)
    requires items[0].Filed? ==> items[0].entry.id != id
    ensures i + |ItemLines(items[0])| <= |lines|
    ensures lines[i + |ItemLines(items[0])|..] == Flat(items[1..])
    ensures Locate(lines, i, id) == Locate(lines, i + |ItemLines(items[0])|, id)
  {
    ItemBehind(lines, i, items);
    SkipGenuine(lines, i, items[0], items, id);
  }

  lemma ItemBehind(lines: seq<string>, i: nat, items: seq<Item>)
    requires i <= |lines| && items != [] && lines[i..] == Flat(items) && Sound(items)
    ensures At(lines, i, ItemLines(items[0]))
    ensures var j := i + |ItemLines(items[0])|;
            lines[j..] == Flat(items[1..]) && (j < |lines| ==> lines[j] == "" || lines[j] == "---")
  {
    ItemAt(lines, i, items);
    SoundTail(items);
    StartBehind(lines, i + |ItemLines(items[0])|, items[1..]);
  }

  lemma StartBehind(lines: seq<string>, i: nat, items: seq<Item>)
    requires i <= |lines| && lines[i..] == Flat(items) && Sound(items)
    ensures i < |lines| ==> lines[i] == "" || lines[i] == "---"
  {
    if i < |lines| {
      SoundFramed(items);
      FlatStart(items);
      assert lines[i] == lines[i..][0];
    }
  }

  lemma SkipGenuine(lines: seq<string>, i: nat, item: Item, items: seq<Item>, id: nat)
    requires At(lines, i, ItemLines(item)) && items != [] && item == items[0] && Sound(items)
    requires item.Filed? ==> item.entry.id != id
    requires var j := i + |ItemLines(item)|; j < |lines| ==> lines[j] == "" || lines[j] == "---"
    ensures Locate(lines, i, id) == Locate(lines, i + |ItemLines(item)|, id)
  {
    SoundTail(items);
    match item {
      case Filed(e, _) => SkipBlock(lines, i, e, id, 0);
      case Gap => AtIndex(lines, i, [""], 0);
    }
  }

  lemma AbsentTail(lines: seq<string>, i: nat, items: seq<Item>, id: nat)
    requires i <= |lines| && items != [] && lines[i..] == Flat(items) && Sound(items) && !Lists(items, id)
    ensures var j := i + |ItemLines(items[0])|;
            && j <= |lines| && lines[j..] == Flat(items[1..]) && Sound(items[1..]) && !Lists(items[1..], id)
            && Locate(lines, i, id) == Locate(lines, j, id)
  {
    SkipItem(lines, i, items, id);
    SoundTail(items);
    if Lists(items[1..], id) {
      ListsTail(items, id);
    }
  }

  lemma {:induction false} LocateAbsent(lines: seq<string>, i: nat, items: seq<Item>, id: nat)
    requires i <= |lines| && lines[i..] == Flat(items) && Sound(items) && !Lists(items, id)
    ensures Locate(lines, i, id).None?
    decreases |items|
  {
    if items != [] {
      AbsentTail(lines, i, items, id);
      LocateAbsent(lines, i + |ItemLines(items[0])|, items[1..], id);
    }
  }

  lemma PrefixTail(items: seq<Item>, k: nat, id: nat)
    requires 0 < k < |items| && !Lists(items[..k], id)
    ensures items[0].Filed? ==> items[0].entry.id != id
    ensures !Lists(items[1..][..k - 1], id) && items[1..][k - 1] == items[k]
    ensures |Flat(items[..k])| == |ItemLines(items[0])| + |Flat(items[1..][..k - 1])|
  {
    var pre := items[..k];
    assert pre[0] == items[0] && pre[1..] == items[1..][..k - 1];
    if Lists(pre[1..], id) {
      ListsTail(pre, id);
    }
  }

  predicate FoundAt(lines: seq<string>, i: nat, id: nat, start: nat, size: nat) {
    Locate(lines, i, id) == Some((start, start + size))
  }

  /** Item `k` is the first that lists `id`; its block begins at `start` and is `size` long. */
  predicate Sought(items: seq<Item>, i: nat, k: nat, id: nat, start: nat, size: nat) {
    && k < |items| && items[k].Filed? && items[k].entry.id == id && !Lists(items[..k], id)
    && start == i + |Flat(items[..k])| && size == |items[k].block|
  }

  lemma SoughtFirst(items: seq<Item>, i: nat, id: nat, start: nat, size: nat)
    requires Sought(items, i, 0, id, start, size)
    ensures start == i
  {
    assert items[..0] == [];
  }

  lemma SoughtTail(items: seq<Item>, i: nat, k: nat, id: nat, start: nat, size: nat)
    requires k > 0 && Sought(items, i, k, id, start, size)
    ensures Sought(items[1..], i + |ItemLines(items[0])|, k - 1, id, start, size)
    ensures items[0].Filed? ==> items[0].entry.id != id
  {
    PrefixTail(items, k, id);
  }

  lemma FlatBehind(lines: seq<string>, i: nat, items: seq<Item>)
    requires i <= |lines| && items != [] && lines[i..] == Flat(items) && Sound(items)
    ensures var j := i + |ItemLines(items[0])|;
            j <= |lines| && lines[j..] == Flat(items[1..]) && Sound(items[1..])
  {
    ItemBehind(lines, i, items);
    SoundTail(items);
  }

  /** What is found behind an item of another id is found from that item on. */
  lemma FoundBehind(lines: seq<string>, i: nat, items: seq<Item>, id: nat, start: nat, size: nat)
    requires i <= |lines| && items != [] && lines[i..] == Flat(items) && Sound(items)
    requires items[0].Filed? ==> items[0].entry.id != id
    requires FoundAt(lines, i + |ItemLines(items[0])|, id, start, size)
    ensures FoundAt(lines, i, id, start, size)
  {
    SkipItem(lines, i, items, id);
  }

  lemma {:induction false} LocateItem(lines: seq<string>, i: nat, items: seq<Item>, k: nat, id: nat,
                                      start: nat, size: nat)
    requires i <= |lines| && lines[i..] == Flat(items) && Sound(items) && Sought(items, i, k, id, start, size)
    ensures FoundAt(lines, i, id, start, size)
    decreases k
  {
    if k == 0 {
      SoughtFirst(items, i, id, start, size);
      LocateHere(lines, i, items);
    } else {
      var j := i + |ItemLines(items[0])|;
      SoughtTail(items, i, k, id, start, size);
      FlatBehind(lines, i, items);
      LocateItem(lines, j, items[1..], k - 1, id, start, size);
      FoundBehind(lines, i, items, id, start, size);
    }
  }

  /** The span the locator returns is exactly the block the reader reads. */
  lemma LocatePresent(lines: seq<string>, i: nat, items: seq<Item>, k: nat, id: nat)
    requires i <= |lines| && lines[i..] == Flat(items) && Sound(items)
    requires k < |items| && items[k].Filed? && items[k].entry.id == id && !Lists(items[..k], id)
    ensures FoundAt(lines, i, id, i + |Flat(items[..k])|, |items[k].block|)
  {
    LocateItem(lines, i, items, k, id, i + |Flat(items[..k])|, |items[k].block|);
  }

  lemma LocateHere(lines: seq<string>, i: nat, items: seq<Item>)
    requires i <= |lines| && items != [] && items[0].Filed? && Sound(items) && lines[i..] == Flat(items)
    ensures FoundAt(lines, i, items[0].entry.id, i, |items[0].block|)
  {
    ItemAt(lines, i, items);
    SoundTail(items);
    LocateBlock(lines, i, items[0].entry);
  }

  lemma LocateBlock(lines: seq<string>, i: nat, e: Entry)
    requires At(lines, i, BlockLines(e))
    ensures FoundAt(lines, i, e.id, i, |BlockLines(e)|)
  {
    AtIndex(lines, i, BlockLines(e), 0);
    AtIndex(lines, i, BlockLines(e), 1);
    EndOfBlock(lines, i, e);
    assert Opens(lines, i, e.id);
  }

  // ---------- whole files ----------

  function Render(items: seq<Item>): string {
    if Flat(items) == [] then "" else JoinLines(Flat(items))
  }

  function FileOf(items: seq<Item>): Option<string> {
    if items == [] then None else Some(Render(items))
  }

  predicate WellFormed(items: seq<Item>) {
    Sound(items) && Unique(items)
  }

  lemma RenderedLines(items: seq<Item>)
    requires items != [] && AllFramed(items)
    ensures SplitLines(Render(items)) == Flat(items)
  {
    FlatStart(items);
    FlatOneLiners(items);
    SplitJoin(Flat(items));
  }

  /** What is read from a file is the summaries of its entries. */
  lemma ReadFile(items: seq<Item>)
    requires Sound(items)
    ensures Read(FileOf(items)) == Meaning(items)
  {
    if items != [] {
      SoundFramed(items);
      RenderedLines(items);
      ReadFlat(items);
    }
  }

  lemma RenderConcat(a: seq<Item>, b: seq<Item>)
    requires a != [] && b != [] && AllFramed(a) && AllFramed(b)
    ensures Render(a + b) == Render(a) + "\n" + Render(b)
  {
    FlatConcat(a, b);
    FlatStart(a);
    FlatStart(b);
    JoinConcat(Flat(a), Flat(b));
  }

  lemma RenderOne(item: Item)
    requires Framed(item)
    ensures Render([item]) == JoinLines(ItemLines(item))
  {
    assert Flat([item]) == ItemLines(item);
  }

  // ---------- upsert ----------

  function TrimEnd(items: seq<Item>): seq<Item> {
    if items != [] && items[|items| - 1].Gap? then TrimEnd(items[..|items| - 1]) else items
  }

  /** The items in front of an appended block: trailing blank lines go. */
  function Base(items: seq<Item>): (r: seq<Item>)
    ensures r != []
  {
    if TrimEnd(items) == [] then [Gap] else TrimEnd(items)
  }

  lemma BlockTextEnds(item: Item)
    requires item.Filed? && Framed(item)
    ensures var t := JoinLines(item.block); t != "" && t[0] == '-' && t[|t| - 1] == '-'
  {
    var n := |item.block| - 1;
    assert item.block == item.block[..n] + ["---"];
    JoinConcat(item.block[..n], ["---"]);
  }

  lemma LastChar(items: seq<Item>)
    requires AllFramed(items) && items != [] && items[|items| - 1].Filed?
    ensures Render(items) != "" && !IsSpace(Render(items)[|Render(items)| - 1])
  {
    var last := items[|items| - 1];
    BlockTextEnds(last);
    RenderOne(last);
    if |items| > 1 {
      assert items == items[..|items| - 1] + [last];
      RenderConcat(items[..|items| - 1], [last]);
    } else {
      assert items == [last];
    }
  }

  lemma LastGap(items: seq<Item>)
    requires |items| > 1 && AllFramed(items) && items[|items| - 1].Gap?
    ensures RStrip(Render(items)) == RStrip(Render(items[..|items| - 1]))
  {
    var front := items[..|items| - 1];
    GapBehind(front);
    assert items == front + [Gap];
    RStripSpaces(Render(front), "\n");
  }

  lemma EmptyLine(s: string)
    ensures "" + "\n" + s == "\n" + s && s + "\n" + "" == s + "\n"
  {
  }

  lemma GapBehind(items: seq<Item>)
    requires items != [] && AllFramed(items)
    ensures Render(items + [Gap]) == Render(items) + "\n"
  {
    RenderOne(Gap);
    RenderConcat(items, [Gap]);
    EmptyLine(Render(items));
  }

  lemma GapBefore(items: seq<Item>)
    requires items != [] && AllFramed(items)
    ensures Render([Gap] + items) == "\n" + Render(items)
  {
    RenderOne(Gap);
    RenderConcat([Gap], items);
    EmptyLine(Render(items));
  }

  lemma {:induction false} RStripFile(items: seq<Item>)
    requires items != [] && AllFramed(items)
    ensures RStrip(Render(items)) == Render(TrimEnd(items))
    decreases |items|
  {
    var n := |items| - 1;
    if items[n].Gap? {
      RenderOne(Gap);
      if n == 0 {
        assert items == [Gap];
      } else {
        LastGap(items);
        RStripFile(items[..n]);
      }
    } else {
      LastChar(items);
    }
  }

  function Appended(items: seq<Item>, x: Item): seq<Item> {
    if items == [] then [x, Gap] else Base(items) + [Gap, x, Gap]
  }

  lemma BaseText(items: seq<Item>)
    requires items != [] && AllFramed(items)
    ensures AllFramed(Base(items)) && RStrip(Render(items)) == Render(Base(items))
  {
    RStripFile(items);
    RenderOne(Gap);
    TrimEndItems(items);
  }

  lemma TailText(x: Item)
    requires x.Filed? && Framed(x)
    ensures Render([x, Gap]) == JoinLines(x.block) + "\n"
    ensures Render([Gap, x, Gap]) == "\n" + JoinLines(x.block) + "\n"
  {
    RenderOne(x);
    assert [x, Gap] == [x] + [Gap];
    GapBehind([x]);
    assert [Gap, x, Gap] == [Gap] + [x, Gap];
    GapBefore([x, Gap]);
    assert "\n" + (JoinLines(x.block) + "\n") == "\n" + JoinLines(x.block) + "\n";
  }

  /** The two outcomes of an upsert into an existing file, in terms of its lines. */
  lemma UpsertMiss(content: string, id: nat, block: string)
    requires Locate(SplitLines(content), 0, id).None?
    ensures Upserted(Some(content), id, block) == RStrip(content) + "\n\n" + TrimNewlines(block) + "\n"
  {
  }

  lemma UpsertHit(content: string, lines: seq<string>, id: nat, block: string, start: nat, size: nat)
    requires SplitLines(content) == lines && FoundAt(lines, 0, id, start, size) && start + size <= |lines|
    ensures Upserted(Some(content), id, block) ==
      JoinLines(lines[..start] + SplitLines(TrimNewlines(block)) + lines[start + size..])
  {
  }

  lemma AppendedRender(items: seq<Item>, x: Item)
    requires AllFramed(items) && items != [] && x.Filed? && Framed(x)
    ensures Render(Appended(items, x)) == RStrip(Render(items)) + "\n\n" + JoinLines(x.block) + "\n"
  {
    TailText(x);
    BaseText(items);
    RenderConcat(Base(items), [Gap, x, Gap]);
    Newlines(Render(Base(items)), JoinLines(x.block));
  }

  lemma Newlines(a: string, b: string)
    ensures a + "\n" + ("\n" + b + "\n") == a + "\n\n" + b + "\n"
  {
  }

  lemma MissIn(items: seq<Item>, id: nat)
    requires Sound(items) && AllFramed(items) && items != [] && !Lists(items, id)
    ensures Locate(SplitLines(Render(items)), 0, id).None?
  {
    RenderedLines(items);
    assert Flat(items)[0..] == Flat(items);
    LocateAbsent(Flat(items), 0, items, id);
  }

  lemma AppendedText(items: seq<Item>, x: Item, id: nat, block: string)
    requires Sound(items) && AllFramed(items) && !Lists(items, id)
    requires x.Filed? && Framed(x) && TrimNewlines(block) == JoinLines(x.block)
    ensures Upserted(FileOf(items), id, block) == Render(Appended(items, x))
  {
    if items == [] {
      TailText(x);
    } else {
      AppendedRender(items, x);
      MissIn(items, id);
      UpsertMiss(Render(items), id, block);
    }
  }

  lemma Spliced(a: seq<string>, b: seq<string>, c: seq<string>, n: seq<string>)
    ensures (a + (b + c))[..|a|] + n + (a + (b + c))[|a| + |b|..] == a + (n + c)
  {
    var l := a + (b + c);
    assert l[..|a|] == a && l[|a| + |b|..] == c;
  }

  lemma FlatAround(items: seq<Item>, k: nat, x: Item)
    requires k < |items|
    ensures Flat(items[k := x]) == Flat(items[..k]) + (ItemLines(x) + Flat(items[k + 1..]))
  {
    var post := [x] + items[k + 1..];
    assert items[k := x] == items[..k] + post;
    FlatConcat(items[..k], post);
    assert post[1..] == items[k + 1..];
  }

  lemma ReplacedFlat(items: seq<Item>, k: nat, x: Item)
    requires k < |items| && items[k].Filed? && x.Filed?
    ensures var start, size := |Flat(items[..k])|, |items[k].block|;
            && start + size <= |Flat(items)|
            && Flat(items[k := x]) == Flat(items)[..start] + x.block + Flat(items)[start + size..]
  {
    FlatAround(items, k, x);
    FlatSelf(items, k);
    Spliced(Flat(items[..k]), items[k].block, Flat(items[k + 1..]), x.block);
    Assoc(Flat(items[..k]), x.block, Flat(items[k + 1..]));
  }

  lemma FlatSelf(items: seq<Item>, k: nat)
    requires k < |items|
    ensures Flat(items) == Flat(items[..k]) + (ItemLines(items[k]) + Flat(items[k + 1..]))
  {
    FlatAround(items, k, items[k]);
    assert items[k := items[k]] == items;
  }

  lemma UniqueBefore(items: seq<Item>, k: nat)
    requires Unique(items) && k < |items| && items[k].Filed?
    ensures !Lists(items[..k], items[k].entry.id)
  {
  }

  lemma HitIn(items: seq<Item>, k: nat)
    requires Sound(items) && AllFramed(items) && Unique(items) && k < |items| && items[k].Filed?
    ensures SplitLines(Render(items)) == Flat(items)
    ensures FoundAt(Flat(items), 0, items[k].entry.id, |Flat(items[..k])|, |items[k].block|)
  {
    RenderedLines(items);
    assert Flat(items)[0..] == Flat(items);
    UniqueBefore(items, k);
    LocatePresent(Flat(items), 0, items, k, items[k].entry.id);
  }

  lemma SpanInside(items: seq<Item>, k: nat)
    requires k < |items| && items[k].Filed?
    ensures |Flat(items[..k])| + |items[k].block| <= |Flat(items)|
  {
    FlatSelf(items, k);
  }

  lemma HitText(items: seq<Item>, k: nat, part: seq<string>, block: string)
    requires Sound(items) && AllFramed(items) && Unique(items) && k < |items| && items[k].Filed?
    requires part != [] && OneLiners(part) && TrimNewlines(block) == JoinLines(part)
    ensures var lines, start, size := Flat(items), |Flat(items[..k])|, |items[k].block|;
            && start + size <= |lines|
            && Upserted(Some(Render(items)), items[k].entry.id, block) ==
                 JoinLines(lines[..start] + part + lines[start + size..])
  {
    var start, size := |Flat(items[..k])|, |items[k].block|;
    HitIn(items, k);
    SpanInside(items, k);
    SplitJoin(part);
    UpsertHit(Render(items), Flat(items), items[k].entry.id, block, start, size);
  }

  lemma ReplacedText(items: seq<Item>, k: nat, x: Item, block: string)
    requires Sound(items) && AllFramed(items) && Unique(items) && k < |items| && items[k].Filed?
    requires x.Filed? && Framed(x) && TrimNewlines(block) == JoinLines(x.block)
    ensures Upserted(Some(Render(items)), items[k].entry.id, block) == Render(items[k := x])
  {
    HitText(items, k, x.block, block);
    ReplacedFlat(items, k, x);
    RenderNonEmpty(items[k := x], x.block);
  }

  lemma RenderNonEmpty(items: seq<Item>, part: seq<string>)
    requires part != [] && |part| <= |Flat(items)|
    ensures Render(items) == JoinLines(Flat(items))
  {
  }

  lemma MeaningAt(items: seq<Item>, i: nat)
    requires Unique(items) && i < |items| && items[i].Filed?
    ensures items[i].entry.id in Meaning(items) && Meaning(items)[items[i].entry.id] == SummaryOf(items[i].entry)
  {
    FilingValue(map[], items, i);
  }

  lemma MeaningKeys(items: seq<Item>, id: nat)
    ensures id in Meaning(items) <==> Lists(items, id)
  {
    FilingMember(map[], items, id);
  }

  lemma SameMap(a: map<nat, string>, b: map<nat, string>)
    requires forall id :: id in a <==> id in b
    requires forall id :: id in b ==> a[id] == b[id]
    ensures a == b
  {
  }

  lemma MeaningIs(items: seq<Item>, m: map<nat, string>)
    requires Unique(items)
    requires forall id :: id in m <==> Lists(items, id)
    requires forall i :: 0 <= i < |items| && items[i].Filed? ==>
      items[i].entry.id in m && m[items[i].entry.id] == SummaryOf(items[i].entry)
    ensures Meaning(items) == m
  {
    var meaning := Meaning(items);
    forall id ensures id in meaning <==> id in m {
      MeaningKeys(items, id);
    }
    forall id | id in m ensures meaning[id] == m[id] {
      var i :| 0 <= i < |items| && items[i].Filed? && items[i].entry.id == id;
      MeaningAt(items, i);
    }
    SameMap(meaning, m);
  }

  lemma ReplacedIds(items: seq<Item>, k: nat, x: Item)
    requires Unique(items) && k < |items| && items[k].Filed? && x.Filed? && items[k].entry.id == x.entry.id
    ensures Unique(items[k := x])
    ensures forall id :: Lists(items[k := x], id) <==> Lists(items, id)
  {
    var after := items[k := x];
    forall id ensures Lists(after, id) <==> Lists(items, id) {
      if Lists(items, id) {
        var i :| 0 <= i < |items| && items[i].Filed? && items[i].entry.id == id;
        assert after[i].Filed? && after[i].entry.id == id;
      }
      if Lists(after, id) {
        var i :| 0 <= i < |after| && after[i].Filed? && after[i].entry.id == id;
        assert items[i].Filed? && items[i].entry.id == id;
      }
    }
  }

  lemma ReplacedMeaning(items: seq<Item>, k: nat, x: Item)
    requires Unique(items) && k < |items| && items[k].Filed? && x.Filed? && items[k].entry.id == x.entry.id
    ensures Unique(items[k := x])
    ensures Meaning(items[k := x]) == Meaning(items)[x.entry.id := SummaryOf(x.entry)]
  {
    var after, m := items[k := x], Meaning(items)[x.entry.id := SummaryOf(x.entry)];
    ReplacedIds(items, k, x);
    assert Lists(items, x.entry.id);
    forall id ensures id in m <==> Lists(after, id) {
      MeaningKeys(items, id);
    }
    forall i | 0 <= i < |after| && after[i].Filed?
      ensures after[i].entry.id in m && m[after[i].entry.id] == SummaryOf(after[i].entry)
    {
      MeaningAt(items, i);
    }
    MeaningIs(after, m);
  }

  lemma {:induction false} TrimEndItems(items: seq<Item>)
    ensures TrimEnd(items) <= items
    ensures forall i :: |TrimEnd(items)| <= i < |items| ==> items[i].Gap?
  {
    if items != [] && items[|items| - 1].Gap? {
      TrimEndItems(items[..|items| - 1]);
    }
  }

  /** The appended list: the old entries in their places, and the new one. */
  lemma AppendedPlaces(items: seq<Item>, x: Item) returns (at: nat)
    requires x.Filed?
    ensures at < |Appended(items, x)| && Appended(items, x)[at] == x
    ensures forall i :: 0 <= i < |items| && items[i].Filed? ==> i < at && Appended(items, x)[i] == items[i]
    ensures forall i :: 0 <= i < |Appended(items, x)| && Appended(items, x)[i].Filed? && i != at ==>
      i < |items| && Appended(items, x)[i] == items[i]
  {
    TrimEndItems(items);
    at := if items == [] then 0 else |Base(items)| + 1;
    var after := Appended(items, x);
    forall i | 0 <= i < |after| && after[i].Filed? && i != at ensures i < |items| && after[i] == items[i] {
      assert i < |TrimEnd(items)|;
    }
  }

  lemma AppendedMeaning(items: seq<Item>, x: Item)
    requires Unique(items) && x.Filed? && !Lists(items, x.entry.id)
    ensures Unique(Appended(items, x))
    ensures Meaning(Appended(items, x)) == Meaning(items)[x.entry.id := SummaryOf(x.entry)]
  {
    var after, m := Appended(items, x), Meaning(items)[x.entry.id := SummaryOf(x.entry)];
    var at := AppendedPlaces(items, x);
    forall i, j | 0 <= i < j < |after| && after[i].Filed? && after[j].Filed?
      ensures after[i].entry.id != after[j].entry.id
    {
      assert i != at ==> after[i] == items[i];
      assert j != at ==> after[j] == items[j];
    }
    forall id ensures id in m <==> Lists(after, id) {
      MeaningKeys(items, id);
      if Lists(items, id) {
        var i :| 0 <= i < |items| && items[i].Filed? && items[i].entry.id == id;
        assert after[i] == items[i];
      }
      if Lists(after, id) {
        var i :| 0 <= i < |after| && after[i].Filed? && after[i].entry.id == id;
        assert i != at ==> after[i] == items[i];
      }
    }
    forall i | 0 <= i < |after| && after[i].Filed?
      ensures after[i].entry.id in m && m[after[i].entry.id] == SummaryOf(after[i].entry)
    {
      if i != at {
        MeaningAt(items, i);
      }
    }
    MeaningIs(after, m);
  }

  lemma AppendedSound(items: seq<Item>, x: Item)
    requires Sound(items) && x.Filed? && Genuine(x)
    ensures Sound(Appended(items, x))
  {
    var after := Appended(items, x);
    var at := AppendedPlaces(items, x);
    forall i | 0 <= i < |after| ensures Genuine(after[i]) {
      if after[i].Filed? && i != at {
        assert after[i] == items[i] && Genuine(items[i]);
      }
    }
  }

  lemma ReplacedSound(items: seq<Item>, k: nat, x: Item)
    requires Sound(items) && k < |items| && Genuine(x)
    ensures Sound(items[k := x])
  {
    var after := items[k := x];
    forall i | 0 <= i < |after| ensures Genuine(after[i]) {
      assert i != k ==> after[i] == items[i] && Genuine(items[i]);
    }
  }

  /** The block text that the writer hands over. */
  lemma BuiltText(e: Entry)
    requires Sane(e)
    ensures Genuine(Filed(e, BlockLines(e)))
    ensures TrimNewlines(BuildBlock(e)) == JoinLines(BlockLines(e))
  {
    var x := Filed(e, BlockLines(e));
    GenuineFramed(x);
    BlockTextEnds(x);
    var t := JoinLines(x.block);
    assert (t + "\n\n")[..|t| + 1] == t + "\n" && (t + "\n")[..|t|] == t;
    assert TrimNewlines(t + "\n") == TrimNewlines(t);
  }

  /** Upserting an entry into any well-formed file, whatever its texts contain, leaves a
      well-formed file from which the reader returns the new summary for that id and the
      old one for every other. */
  lemma UpsertRead(items: seq<Item>, e: Entry) returns (after: seq<Item>)
    requires WellFormed(items) && Sane(e)
    ensures WellFormed(after) && Some(Upserted(FileOf(items), e.id, BuildBlock(e))) == FileOf(after)
    ensures Read(FileOf(after)) == Read(FileOf(items))[e.id := SummaryOf(e)]
  {
    BuiltText(e);
    after := UpsertItem(items, Filed(e, BlockLines(e)), BuildBlock(e));
    ReadFile(items);
    ReadFile(after);
  }

  lemma UpsertItem(items: seq<Item>, x: Item, block: string) returns (after: seq<Item>)
    requires WellFormed(items) && x.Filed? && Genuine(x) && TrimNewlines(block) == JoinLines(x.block)
    ensures WellFormed(after) && Some(Upserted(FileOf(items), x.entry.id, block)) == FileOf(after)
    ensures Meaning(after) == Meaning(items)[x.entry.id := SummaryOf(x.entry)]
  {
    SoundFramed(items);
    GenuineFramed(x);
    if Lists(items, x.entry.id) {
      var k :| 0 <= k < |items| && items[k].Filed? && items[k].entry.id == x.entry.id;
      after := items[k := x];
      ReplacedText(items, k, x, block);
      ReplacedMeaning(items, k, x);
      ReplacedSound(items, k, x);
    } else {
      after := Appended(items, x);
      AppendedText(items, x, x.entry.id, block);
      AppendedMeaning(items, x);
      AppendedSound(items, x);
    }
  }

  // ---------- removal ----------

  function Without(items: seq<Item>, id: nat): (r: seq<Item>)
    ensures |r| <= |items| && forall x :: x in r ==> x in items
  {
    if items == [] then []
    else if items[0].Filed? && items[0].entry.id == id then items[1..]
    else [items[0]] + Without(items[1..], id)
  }

  function WithoutAll(items: seq<Item>, ids: seq<nat>): seq<Item>
    decreases |ids|
  {
    if ids == [] then items else WithoutAll(Without(items, ids[0]), ids[1..])
  }

  lemma {:induction false} WithoutIs(items: seq<Item>, k: nat, id: nat)
    requires k < |items| && items[k].Filed? && items[k].entry.id == id && !Lists(items[..k], id)
    ensures Without(items, id) == items[..k] + items[k + 1..]
    decreases |items|
  {
    if k > 0 {
      assert items[..k][0] == items[0] && items[..k][1..] == items[1..][..k - 1];
      if Lists(items[1..][..k - 1], id) {
        ListsTail(items[..k], id);
      }
      WithoutIs(items[1..], k - 1, id);
    }
  }

  lemma {:induction false} WithoutNone(items: seq<Item>, id: nat)
    requires !Lists(items, id)
    ensures Without(items, id) == items
  {
    if items != [] {
      if Lists(items[1..], id) {
        ListsTail(items, id);
      }
      WithoutNone(items[1..], id);
    }
  }

  lemma DeletedHit(lines: seq<string>, id: nat, start: nat, size: nat)
    requires FoundAt(lines, 0, id, start, size) && start + size <= |lines|
    ensures Deleted(lines, id) == lines[..start] + lines[start + size..]
  {
  }

  lemma DeletedAt(items: seq<Item>, k: nat, id: nat)
    requires k < |items| && items[k].Filed? && FoundAt(Flat(items), 0, id, |Flat(items[..k])|, |items[k].block|)
    ensures Deleted(Flat(items), id) == Flat(items[..k] + items[k + 1..])
    ensures |Flat(items)| == |Flat(items[..k] + items[k + 1..])| + |items[k].block|
  {
    var pre, post := Flat(items[..k]), Flat(items[k + 1..]);
    FlatAround(items, k, items[k]);
    assert items[k := items[k]] == items;
    FlatConcat(items[..k], items[k + 1..]);
    Cut(pre, items[k].block, post);
    DeletedHit(Flat(items), id, |pre|, |items[k].block|);
  }

  /** Deleting the located lines deletes the block and nothing else. */
  lemma DeletedLines(items: seq<Item>, id: nat)
    requires WellFormed(items)
    ensures Deleted(Flat(items), id) == Flat(Without(items, id))
    ensures if Lists(items, id) then |Flat(Without(items, id))| < |Flat(items)| else Without(items, id) == items
  {
    var lines := Flat(items);
    assert lines[0..] == lines;
    if Lists(items, id) {
      var k :| 0 <= k < |items| && items[k].Filed? && items[k].entry.id == id;
      LocatePresent(lines, 0, items, k, id);
      WithoutIs(items, k, id);
      SoundFramed(items);
      assert Framed(items[k]);
      DeletedAt(items, k, id);
    } else {
      LocateAbsent(lines, 0, items, id);
      WithoutNone(items, id);
    }
  }

  lemma Cut(a: seq<string>, b: seq<string>, c: seq<string>)
    ensures (a + (b + c))[..|a|] + (a + (b + c))[|a| + |b|..] == a + c
  {
    var l := a + (b + c);
    assert l[..|a|] == a && l[|a| + |b|..] == c;
  }

  lemma WithoutWellFormed(items: seq<Item>, id: nat)
    requires WellFormed(items)
    ensures WellFormed(Without(items, id)) && Meaning(Without(items, id)) == Meaning(items) - {id}
  {
    if Lists(items, id) {
      var k :| 0 <= k < |items| && items[k].Filed? && items[k].entry.id == id;
      WithoutIs(items, k, id);
      RemovedMeaning(items, k);
    } else {
      WithoutNone(items, id);
      MeaningKeys(items, id);
    }
  }

  lemma RemovedSound(items: seq<Item>, k: nat)
    requires Sound(items) && k < |items|
    ensures Sound(items[..k] + items[k + 1..])
  {
    var after := items[..k] + items[k + 1..];
    forall i | 0 <= i < |after| ensures Genuine(after[i]) {
      var j := if i < k then i else i + 1;
      assert after[i] == items[j] && Genuine(items[j]);
    }
  }

  lemma RemovedPlaces(items: seq<Item>, k: nat)
    requires Unique(items) && k < |items| && items[k].Filed?
    ensures Unique(items[..k] + items[k + 1..])
    ensures forall id :: Lists(items[..k] + items[k + 1..], id) <==> Lists(items, id) && id != items[k].entry.id
  {
    var after := items[..k] + items[k + 1..];
    assert forall i :: 0 <= i < |after| ==> after[i] == items[if i < k then i else i + 1];
    forall id ensures Lists(after, id) <==> Lists(items, id) && id != items[k].entry.id {
      if Lists(items, id) && id != items[k].entry.id {
        var i :| 0 <= i < |items| && items[i].Filed? && items[i].entry.id == id;
        assert after[if i < k then i else i - 1] == items[i];
      }
      if Lists(after, id) {
        var i :| 0 <= i < |after| && after[i].Filed? && after[i].entry.id == id;
        var j := if i < k then i else i + 1;
        assert items[j].Filed? && items[j].entry.id == id && j != k;
      }
    }
  }

  lemma RemovedMeaning(items: seq<Item>, k: nat)
    requires WellFormed(items) && k < |items| && items[k].Filed?
    ensures var after := items[..k] + items[k + 1..];
            WellFormed(after) && Meaning(after) == Meaning(items) - {items[k].entry.id}
  {
    var after, m := items[..k] + items[k + 1..], Meaning(items) - {items[k].entry.id};
    RemovedSound(items, k);
    RemovedPlaces(items, k);
    forall id ensures id in m <==> Lists(after, id) {
      MeaningKeys(items, id);
    }
    forall i | 0 <= i < |after| && after[i].Filed?
      ensures after[i].entry.id in m && m[after[i].entry.id] == SummaryOf(after[i].entry)
    {
      var j := if i < k then i else i + 1;
      assert after[i] == items[j];
      MeaningAt(items, j);
    }
    MeaningIs(after, m);
  }

  function IdSet(ids: seq<nat>): set<nat> {
    set id | id in ids
  }

  lemma {:induction false} DeletedAllLines(items: seq<Item>, ids: seq<nat>)
    requires WellFormed(items)
    ensures WellFormed(WithoutAll(items, ids))
    ensures DeletedAll(Flat(items), ids) == Flat(WithoutAll(items, ids))
    ensures |Flat(WithoutAll(items, ids))| <= |Flat(items)|
    ensures |Flat(WithoutAll(items, ids))| == |Flat(items)| ==> WithoutAll(items, ids) == items
    decreases |ids|
  {
    if ids != [] {
      var less := Without(items, ids[0]);
      DeletedLines(items, ids[0]);
      WithoutWellFormed(items, ids[0]);
      DeletedAllLines(less, ids[1..]);
      assert DeletedAll(Flat(items), ids) == DeletedAll(Flat(less), ids[1..]);
    }
  }

  lemma {:induction false} WithoutAllMeaning(items: seq<Item>, ids: seq<nat>)
    requires WellFormed(items)
    ensures Meaning(WithoutAll(items, ids)) == Meaning(items) - IdSet(ids)
    decreases |ids|
  {
    if ids != [] {
      WithoutWellFormed(items, ids[0]);
      WithoutAllMeaning(Without(items, ids[0]), ids[1..]);
      assert IdSet(ids) == {ids[0]} + IdSet(ids[1..]);
    }
  }

  function TrimStart(items: seq<Item>): seq<Item> {
    if items != [] && items[0].Gap? then TrimStart(items[1..]) else items
  }

  lemma FirstGap(items: seq<Item>)
    requires |items| > 1 && AllFramed(items) && items[0].Gap?
    ensures LStrip(Render(items)) == LStrip(Render(items[1..]))
    ensures AllFramed(items[1..]) && TrimStart(items) == TrimStart(items[1..])
  {
    FramedRest(items);
    GapBefore(items[1..]);
    LStripSpaces("\n", Render(items[1..]));
  }

  lemma FramedRest(items: seq<Item>)
    requires items != [] && AllFramed(items) && items[0].Gap?
    ensures AllFramed(items[1..]) && items == [Gap] + items[1..]
  {
  }

  lemma {:induction false} LStripFile(items: seq<Item>)
    requires items != [] && AllFramed(items)
    ensures LStrip(Render(items)) == Render(TrimStart(items))
    ensures TrimStart(items) != [] ==> TrimStart(items)[0].Filed?
    ensures AllFramed(TrimStart(items))
    decreases |items|
  {
    if items[0].Filed? {
      FiledFront(items);
    } else if |items| == 1 {
      LoneGap(items);
    } else {
      FirstGap(items);
      LStripFile(items[1..]);
    }
  }

  lemma FiledFront(items: seq<Item>)
    requires AllFramed(items) && items != [] && items[0].Filed?
    ensures LStrip(Render(items)) == Render(items) && TrimStart(items) == items
  {
    FirstChar(items);
  }

  lemma LoneGap(items: seq<Item>)
    requires items == [Gap]
    ensures LStrip(Render(items)) == Render([]) && TrimStart(items) == []
  {
    RenderOne(Gap);
    assert items[1..] == [];
  }

  lemma FirstChar(items: seq<Item>)
    requires AllFramed(items) && items != [] && items[0].Filed?
    ensures Render(items) != "" && !IsSpace(Render(items)[0])
  {
    BlockTextEnds(items[0]);
    RenderOne(items[0]);
    if |items| > 1 {
      assert items == [items[0]] + items[1..];
      RenderConcat([items[0]], items[1..]);
    } else {
      assert items == [items[0]];
    }
  }

  /** The file after a removal that changed something. */
  function Tidied(items: seq<Item>): seq<Item> {
    var core := TrimEnd(TrimStart(items));
    if core == [] then [] else core + [Gap, Gap]
  }

  lemma CoreText(items: seq<Item>)
    requires items != [] && AllFramed(items)
    ensures var core := TrimEnd(TrimStart(items));
            && AllFramed(core) && Strip(Render(items)) == Render(core)
            && (core != [] ==> core[0].Filed?)
  {
    LStripFile(items);
    var front := TrimStart(items);
    TrimEndItems(front);
    if front != [] {
      RStripFile(front);
    }
  }

  lemma PaddedText(core: seq<Item>)
    requires AllFramed(core) && core != [] && core[0].Filed?
    ensures Render(core) != "" && Render(core + [Gap, Gap]) == Render(core) + "\n\n"
  {
    FirstChar(core);
    RenderOne(Gap);
    assert [Gap, Gap] == [Gap] + [Gap];
    RenderConcat([Gap], [Gap]);
    RenderConcat(core, [Gap, Gap]);
  }

  function TidyText(text: string): Option<string> {
    if Strip(text) == "" then None else Some(Strip(text) + "\n\n")
  }

  lemma TidiedText(items: seq<Item>)
    requires AllFramed(items)
    ensures FileOf(Tidied(items)) == TidyText(Render(items))
  {
    if items != [] {
      CoreText(items);
      var core := TrimEnd(TrimStart(items));
      if core != [] {
        PaddedText(core);
      }
    }
  }

  lemma {:induction false} FilingGaps(result: map<nat, string>, a: seq<Item>, b: seq<Item>)
    requires forall i :: 0 <= i < |b| ==> b[i].Gap?
    ensures Filing(result, a + b) == Filing(result, a)
    decreases |a|, |b|
  {
    if a != [] {
      assert (a + b)[1..] == a[1..] + b;
      var next := match a[0]
        case Gap => result
        case Filed(e, _) => Recorded(result, Some(e.id), SummaryOf(e));
      FilingGaps(next, a[1..], b);
    } else if b != [] {
      assert a + b == b;
      FilingGaps(result, [], b[1..]);
      assert [] + b[1..] == b[1..];
    } else {
      assert a + b == a;
    }
  }

  lemma {:induction false} TrimStartMeaning(items: seq<Item>)
    ensures Meaning(TrimStart(items)) == Meaning(items)
    ensures WellFormed(items) ==> WellFormed(TrimStart(items))
  {
    if items != [] && items[0].Gap? {
      TrimStartMeaning(items[1..]);
      if WellFormed(items) {
        SoundTail(items);
      }
    }
  }

  lemma TidiedSound(core: seq<Item>, front: seq<Item>)
    requires WellFormed(front) && core <= front
    ensures WellFormed(core) && WellFormed(core + [Gap, Gap])
  {
    forall i | 0 <= i < |core| ensures Genuine(core[i]) {
      assert Genuine(front[i]);
    }
    var padded := core + [Gap, Gap];
    forall i | 0 <= i < |padded| ensures Genuine(padded[i]) {
      assert i < |core| ==> padded[i] == core[i] && Genuine(core[i]);
    }
  }

  lemma CoreMeaning(front: seq<Item>, core: seq<Item>)
    requires core <= front && forall i :: |core| <= i < |front| ==> front[i].Gap?
    ensures Meaning(core) == Meaning(front)
  {
    assert front == core + front[|core|..];
    FilingGaps(map[], core, front[|core|..]);
  }

  lemma TidiedMeaning(items: seq<Item>)
    requires WellFormed(items)
    ensures WellFormed(Tidied(items)) && Meaning(Tidied(items)) == Meaning(items)
  {
    TrimStartMeaning(items);
    var front := TrimStart(items);
    var core := TrimEnd(front);
    TrimEndItems(front);
    TidiedSound(core, front);
    CoreMeaning(front, core);
    if core != [] {
      FilingGaps(map[], core, [Gap, Gap]);
    }
  }

  /** Removal deletes exactly the named ids: everything else reads as before, and a file
      with nothing left is gone. */
  lemma RemoveRead(items: seq<Item>, ids: seq<nat>) returns (after: seq<Item>)
    requires WellFormed(items)
    ensures WellFormed(after) && Removed(FileOf(items), ids) == FileOf(after)
    ensures Read(Removed(FileOf(items), ids)) == Read(FileOf(items)) - IdSet(ids)
  {
    ReadFile(items);
    DeletedAllLines(items, ids);
    WithoutAllMeaning(items, ids);
    var left := WithoutAll(items, ids);
    if items == [] {
      after := [];
    } else {
      SoundFramed(items);
      SoundFramed(left);
      RenderedLines(items);
      if |Flat(left)| == |Flat(items)| {
        after := items;
      } else {
        after := Tidied(left);
        TidiedText(left);
        TidiedMeaning(left);
        assert left != [] ==> Flat(left) != [] by {
          if left != [] {
            FlatStart(left);
          }
        }
      }
    }
    ReadFile(after);
  }

  // ---------- any number of writes ----------

  datatype Write = Upsert(entry: Entry) | Remove(ids: seq<nat>)

  function Apply(file: Option<string>, w: Write): Option<string> {
    match w
    case Upsert(e) => Some(Upserted(file, e.id, BuildBlock(e)))
    case Remove(ids) => Removed(file, ids)
  }

  function ApplyAll(file: Option<string>, ws: seq<Write>): Option<string>
    decreases |ws|
  {
    if ws == [] then file else ApplyAll(Apply(file, ws[0]), ws[1..])
  }

  /** What the archive should hold, said without files. */
  function Expected(m: map<nat, string>, ws: seq<Write>): map<nat, string>
    decreases |ws|
  {
    if ws == [] then m
    else match ws[0]
      case Upsert(e) => Expected(m[e.id := SummaryOf(e)], ws[1..])
      case Remove(ids) => Expected(m - IdSet(ids), ws[1..])
  }

  lemma {:induction false} WritesRead(items: seq<Item>, ws: seq<Write>)
    requires WellFormed(items) && forall i :: 0 <= i < |ws| && ws[i].Upsert? ==> Sane(ws[i].entry)
    ensures Read(ApplyAll(FileOf(items), ws)) == Expected(Read(FileOf(items)), ws)
    decreases |ws|
  {
    if ws != [] {
      match ws[0] {
        case Upsert(e) =>
          var after := UpsertRead(items, e);
          WritesRead(after, ws[1..]);
        case Remove(ids) =>
          var after := RemoveRead(items, ids);
          WritesRead(after, ws[1..]);
      }
    }
  }

  /** From no file at all, every history of writes reads back as intended. */
  lemma ArchiveFaithful(ws: seq<Write>)
    requires forall i :: 0 <= i < |ws| && ws[i].Upsert? ==> Sane(ws[i].entry)
    ensures Read(ApplyAll(None, ws)) == Expected(map[], ws)
  {
    WritesRead([], ws);
  }
}
