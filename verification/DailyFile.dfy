/** The line-oriented daily archive: `_build_entry_block`, `_read_daily_summaries`,
    `_find_block_line_span`, `_update_or_append_daily` and `_remove_entry_blocks`
    (memory/manager.py).  A file is its text, or None when it does not exist. */
module DailyFile {
  import opened Text
  import opened EntryCodec

  datatype Entry = Entry(id: nat, time: string, session: string, userCall: string, message: string)

  /** The time stamp and the session id come from the program and are one line each. */
  predicate Sane(e: Entry) {
    OneLine(e.time) && OneLine(e.session)
  }

  // ---------- the block of an entry ----------

  function IdLine(id: nat): string {
    "ID: \"" + Digits(id) + "\""
  }

  function CallLine(userCall: string): string {
    "user_call: " + Encode(userCall)
  }

  const WEIGHT_LINE := "weight: \"0\""
  const MESSAGE_LINE := "message: |"

  function Heading(e: Entry): seq<string> {
    ["---", IdLine(e.id), "日期: \"" + e.time + "\"", "session_id: \"" + e.session + "\"",
     CallLine(e.userCall), WEIGHT_LINE, MESSAGE_LINE]
  }

  function Indented(lines: seq<string>): (r: seq<string>)
    ensures |r| == |lines| && forall i :: 0 <= i < |lines| ==> r[i] == "  " + lines[i]
  {
    seq(|lines|, i requires 0 <= i < |lines| => "  " + lines[i])
  }

  function BlockLines(e: Entry): seq<string> {
    Heading(e) + Indented(SplitLines(e.message)) + ["---"]
  }

  /** The text that is written: every message line is indented by two blanks. */
  function BuildBlock(e: Entry): string {
    JoinLines(BlockLines(e)) + "\n\n"
  }

  // ---------- the reader ----------

  predicate EndsWith(s: string, end: string) {
    |end| <= |s| && s[|s| - |end|..] == end
  }

  predicate StartsWith(s: string, start: string) {
    start <= s
  }

  /** Ends with a quote that is not preceded by a backslash. */
  predicate QuoteClosed(s: string) {
    EndsWith(s, "\"") && !EndsWith(s, "\\\"")
  }

  function TrimQuotes(s: string): string {
    if s != "" && s[0] == '"' then TrimQuotes(s[1..])
    else if s != "" && s[|s| - 1] == '"' then TrimQuotes(s[..|s| - 1])
    else s
  }

  function LastNewline(s: string, limit: nat): (r: int)
    requires limit <= |s|
    ensures -1 <= r < limit
  {
    if limit == 0 then -1 else if s[limit - 1] == '\n' then limit - 1 else LastNewline(s, limit - 1)
  }

  /** The summary of the captured message lines, cut at a line end near 500 characters. */
  function Finalize(lines: seq<string>): string {
    if lines == [] then ""
    else Abridged(Strip(JoinLines(lines)))
  }

  function Abridged(text: string): string {
    if |text| <= 500 then text
    else
      var last := LastNewline(text, 500);
      var cut := if last < 200 then 500 else last;
      text[..cut] + "……（共" + Digits(|text|) + "字）"
  }

  datatype Reader = Reader(
    result: map<nat, string>, current: Option<nat>, lines: seq<string>,
    inBlock: bool, capture: bool, inUserCall: bool)

  const START := Reader(map[], None, [], false, false, false)

  /** The first block of an id wins. */
  function Recorded(result: map<nat, string>, id: Option<nat>, summary: string): map<nat, string> {
    if id.None? || id.value in result then result else result[id.value := summary]
  }

  function Captured(lines: seq<string>, raw: string): seq<string> {
    if Strip(raw) == "" then lines else lines + [Strip(raw)]
  }

  function Step(r: Reader, raw: string): Reader {
    if r.inUserCall then
      if QuoteClosed(raw) && RStrip(raw) != "" then r.(inUserCall := false) else r
    else if raw == "---" then
      if r.inBlock then
        Reader(Recorded(r.result, r.current, Finalize(r.lines)), None, [], false, false, false)
      else r.(inBlock := true)
    else if !r.inBlock then r
    else if StartsWith(raw, "ID:") then r.(current := Number(TrimQuotes(Strip(AfterColon(raw)))))
    else if StartsWith(raw, "user_call:") then
      if Decode(AfterColon(raw)).None? && !QuoteClosed(RStrip(raw)) then r.(inUserCall := true) else r
    else if StartsWith(raw, "message:") then r.(capture := true)
    else if r.capture then r.(lines := Captured(r.lines, raw))
    else r
  }

  function Scan(r: Reader, lines: seq<string>): Reader
    decreases |lines|
  {
    if lines == [] then r else Scan(Step(r, lines[0]), lines[1..])
  }

  /** A block that is still open at the end of the file counts as well. */
  function Finish(r: Reader): map<nat, string> {
    if r.inBlock then Recorded(r.result, r.current, Finalize(r.lines)) else r.result
  }

  function ReadLines(lines: seq<string>): map<nat, string> {
    Finish(Scan(START, lines))
  }

  function Read(file: Option<string>): map<nat, string> {
    if file.None? then map[] else ReadLines(SplitLines(file.value))
  }

  method ReadDailySummaries(file: Option<string>) returns (result: map<nat, string>)
    ensures result == Read(file)
  {
    result := map[];
    if file.None? {
      return;
    }
    var all := SplitLines(file.value);
    var current: Option<nat>, message: seq<string> := None, [];
    var inBlock, capture, inUserCall := false, false, false;
    var i := 0;
    while i < |all|
      invariant 0 <= i <= |all|
      invariant Scan(Reader(result, current, message, inBlock, capture, inUserCall), all[i..]) == Scan(START, all)
    {
      var raw := all[i];
      assert all[i..][1..] == all[i + 1..];
      i := i + 1;
      if inUserCall {
        if QuoteClosed(raw) && RStrip(raw) != "" {
          inUserCall := false;
        }
      } else if raw == "---" {
        if inBlock {
          if current.Some? && current.value !in result {
            result := result[current.value := Finalize(message)];
          }
          current, message, capture, inBlock := None, [], false, false;
        } else {
          inBlock := true;
        }
      } else if inBlock {
        if StartsWith(raw, "ID:") {
          current := Number(TrimQuotes(Strip(AfterColon(raw))));
        } else if StartsWith(raw, "user_call:") {
          if Decode(AfterColon(raw)).None? && !QuoteClosed(RStrip(raw)) {
            inUserCall := true;
          }
        } else if StartsWith(raw, "message:") {
          capture := true;
        } else if capture {
          message := Captured(message, raw);
        }
      }
    }
    if inBlock && current.Some? && current.value !in result {
      result := result[current.value := Finalize(message)];
    }
  }

  // ---------- the writer's locator ----------

  /** Index behind the line that closes a block whose inner lines begin at j. */
  function BlockEnd(lines: seq<string>, j: nat, inUserCall: bool): (k: nat)
    requires j <= |lines|
    ensures j <= k <= |lines|
    decreases |lines| - j
  {
    if j == |lines| then j
    else if inUserCall then BlockEnd(lines, j + 1, !(QuoteClosed(lines[j]) && Strip(lines[j]) != ""))
    else if lines[j] == "---" then j + 1
    else BlockEnd(lines, j + 1, StartsWith(lines[j], "user_call:") && !QuoteClosed(RStrip(lines[j])))
  }

  predicate Opens(lines: seq<string>, i: nat, id: nat) {
    i + 1 < |lines| && lines[i] == "---" && lines[i + 1] == IdLine(id)
  }

  function Locate(lines: seq<string>, i: nat, id: nat): (r: Option<(nat, nat)>)
    ensures r.Some? ==> i <= r.value.0 <= r.value.1 <= |lines|
    decreases |lines| - i
  {
    if i + 1 >= |lines| then None
    else if Opens(lines, i, id) then Some((i, BlockEnd(lines, i + 2, false)))
    else Locate(lines, i + 1, id)
  }

  method FindBlockLineSpan(lines: seq<string>, id: nat) returns (span: Option<(nat, nat)>)
    ensures span == Locate(lines, 0, id)
  {
    var n, i := |lines|, 0;
    while i < n - 1
      invariant 0 <= i && (n > 0 ==> i <= n - 1)
      invariant Locate(lines, i, id) == Locate(lines, 0, id)
    {
      if lines[i] == "---" && lines[i + 1] == IdLine(id) {
        var end := FindBlockEnd(lines, i + 2);
        return Some((i, end));
      }
      i := i + 1;
    }
    span := None;
  }

  /** The inner scan: behind the closing line, or the end of the file. */
  method FindBlockEnd(lines: seq<string>, start: nat) returns (end: nat)
    requires start <= |lines|
    ensures end == BlockEnd(lines, start, false)
  {
    var inUserCall := false;
    end := start;
    while end < |lines|
      invariant start <= end <= |lines|
      invariant BlockEnd(lines, end, inUserCall) == BlockEnd(lines, start, false)
    {
      var raw := lines[end];
      if inUserCall {
        if QuoteClosed(raw) && Strip(raw) != "" {
          inUserCall := false;
        }
      } else {
        if raw == "---" {
          return end + 1;
        }
        if StartsWith(raw, "user_call:") && !QuoteClosed(RStrip(raw)) {
          inUserCall := true;
        }
      }
      end := end + 1;
    }
  }

  // ---------- the writer ----------

  function TrimNewlines(s: string): string {
    if s != "" && s[|s| - 1] == '\n' then TrimNewlines(s[..|s| - 1]) else s
  }

  /** Replace the block of that id, or append the block behind the last line. */
  function Upserted(file: Option<string>, id: nat, block: string): string {
    var text := TrimNewlines(block);
    if file.None? then text + "\n"
    else
      var lines := SplitLines(file.value);
      match Locate(lines, 0, id)
      case Some(span) => JoinLines(lines[..span.0] + SplitLines(text) + lines[span.1..])
      case None => RStrip(file.value) + "\n\n" + text + "\n"
  }

  method UpdateOrAppend(file: Option<string>, id: nat, block: string) returns (content: string)
    ensures content == Upserted(file, id, block)
  {
    var text := TrimNewlines(block);
    if file.None? {
      return text + "\n";
    }
    var lines := SplitLines(file.value);
    var span := FindBlockLineSpan(lines, id);
    if span.Some? {
      content := JoinLines(lines[..span.value.0] + SplitLines(text) + lines[span.value.1..]);
    } else {
      content := RStrip(file.value) + "\n\n" + text + "\n";
    }
  }

  function Deleted(lines: seq<string>, id: nat): seq<string> {
    match Locate(lines, 0, id)
    case None => lines
    case Some(span) => lines[..span.0] + lines[span.1..]
  }

  function DeletedAll(lines: seq<string>, ids: seq<nat>): seq<string>
    decreases |ids|
  {
    if ids == [] then lines else DeletedAll(Deleted(lines, ids[0]), ids[1..])
  }

  /** An emptied file is removed; a file without any of the ids is left as it is. */
  function Removed(file: Option<string>, ids: seq<nat>): Option<string> {
    if file.None? then None
    else
      var lines := SplitLines(file.value);
      var left := DeletedAll(lines, ids);
      if |left| == |lines| then file
      else
        var content := if left == [] then "" else Strip(JoinLines(left));
        if content == "" then None else Some(content + "\n\n")
  }

  method RemoveEntryBlocks(file: Option<string>, ids: seq<nat>) returns (r: Option<string>)
    ensures r == Removed(file, ids)
  {
    if file.None? || ids == [] {
      return file;
    }
    var lines := SplitLines(file.value);
    var was := |lines|;
    var changed := false;
    var k := 0;
    while k < |ids|
      invariant 0 <= k <= |ids|
      invariant DeletedAll(lines, ids[k..]) == DeletedAll(SplitLines(file.value), ids)
      invariant |lines| <= was && (changed <==> |lines| < was)
    {
      assert ids[k..][1..] == ids[k + 1..];
      var span := FindBlockLineSpan(lines, ids[k]);
      if span.Some? {
        LocateNonEmpty(lines, 0, ids[k]);
        lines := lines[..span.value.0] + lines[span.value.1..];
        changed := true;
      }
      k := k + 1;
    }
    if !changed {
      return file;
    }
    var content := if lines == [] then "" else Strip(JoinLines(lines));
    if content == "" {
      return None;
    }
    return Some(content + "\n\n");
  }

  lemma {:induction false} LocateNonEmpty(lines: seq<string>, i: nat, id: nat)
    ensures Locate(lines, i, id).Some? ==> Locate(lines, i, id).value.0 < Locate(lines, i, id).value.1
    decreases |lines| - i
  {
    if i + 1 < |lines| && !Opens(lines, i, id) {
      LocateNonEmpty(lines, i + 1, id);
    }
  }
}
