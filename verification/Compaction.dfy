/** Replacing early history by a summary: `find_safe_tail_boundary`, `Compressor.full_compress`
    and `Compressor.incremental_compress` (core/compressor.py).  The language model's reply
    is a parameter. */
module Compaction {
  import opened Text
  import opened Messages
  import opened MessageStorage
  import opened LightCompression

  // ---------- where the kept tail begins ----------

  /** Index of the first message of the tool run that reaches back from i. */
  function RunStart(ms: seq<Message>, i: nat): (p: nat)
    requires i < |ms| && ms[i].role.Tool?
    ensures p <= i && forall k :: p <= k <= i ==> ms[k].role.Tool?
    ensures p > 0 ==> !ms[p - 1].role.Tool?
    decreases i
  {
    if i > 0 && ms[i - 1].role.Tool? then RunStart(ms, i - 1) else i
  }

  function Boundary(ms: seq<Message>, tailN: nat): (b: nat)
    ensures b <= |ms|
  {
    if |ms| <= tailN + 1 then 0
    else
      var raw := |ms| - tailN;
      if raw == |ms| || !ms[raw].role.Tool? then raw
      else
        var p := RunStart(ms, raw);
        if p > 0 && ms[p - 1].role.Assistant? then p - 1 else p
  }

  method FindSafeTailBoundary(ms: seq<Message>, tailN: nat) returns (tailStart: nat)
    ensures tailStart == Boundary(ms, tailN)
  {
    var n := |ms|;
    if n <= tailN + 1 {
      return 0;
    }
    tailStart := n - tailN;
    if tailStart < n && ms[tailStart].role.Tool? {
      while tailStart > 0 && ms[tailStart - 1].role.Tool?
        invariant tailStart < n && ms[tailStart].role.Tool?
        invariant RunStart(ms, tailStart) == RunStart(ms, n - tailN)
      {
        tailStart := tailStart - 1;
      }
      if tailStart > 0 && ms[tailStart - 1].role.Assistant? {
        tailStart := tailStart - 1;
      }
    }
  }

  /** A tool run belongs to the assistant message in front of it; without one, as runtime
      records can be, it is a group of its own. */
  predicate GroupStart(ms: seq<Message>, i: nat) {
    i == |ms| ||
    (i < |ms| && (ms[i].role.Tool? ==> i == 0 || (!ms[i - 1].role.Tool? && !ms[i - 1].role.Assistant?)))
  }

  /** The tail begins at the last group start that still keeps `tailN` messages. */
  lemma BoundaryLargest(ms: seq<Message>, tailN: nat)
    requires |ms| > tailN + 1
    ensures var b := Boundary(ms, tailN);
            GroupStart(ms, b) && b <= |ms| - tailN &&
            forall i :: b < i <= |ms| - tailN ==> !GroupStart(ms, i)
  {
  }

  /** In a transcript a visible tool message never begins a group. */
  lemma VisibleGroups(ms: seq<Message>, i: nat)
    requires Arranged(ms) && i < |ms| && VisibleTool(ms[i])
    ensures !GroupStart(ms, i)
  {
    if i == 1 {
      PairedHead(ms[1..]);
    } else if i > 1 {
      BeforeTool(ms[1..], i - 2);
      assert ms[1..][i - 2] == ms[i - 1] && ms[1..][i - 1] == ms[i];
    }
  }

  /** Without any assumption, the tail does not begin with a result cut from its carrier. */
  lemma BoundaryPaired(ms: seq<Message>, tailN: nat)
    requires Paired(ms)
    ensures Paired(ms[Boundary(ms, tailN)..])
  {
    var b := Boundary(ms, tailN);
    if 0 < b < |ms| {
      BeforeTool(ms, b - 1);
    } else if b == 0 && ms != [] {
      PairedHead(ms);
    }
    PairedCut(ms, b);
  }

  lemma PairedHead(ms: seq<Message>)
    requires Paired(ms) && ms != []
    ensures !VisibleTool(ms[0])
  {
  }

  /** The first message of a transcript, which is the system message if it has one, and an
      old summary are never part of the tail. */
  lemma BoundaryInside(ms: seq<Message>, tailN: nat)
    requires Arranged(ms) && |ms| > tailN + 1
    ensures Boundary(ms, tailN) <= |ms| - tailN
    ensures Headed(ms) ==> Boundary(ms, tailN) >= 1
    ensures Boundary(ms, tailN) >= 1 && Summary(ms[1]) ==> Boundary(ms, tailN) >= 2
    ensures 1 <= Boundary(ms, tailN) < |ms| ==> !VisibleTool(ms[Boundary(ms, tailN)])
  {
    var b := Boundary(ms, tailN);
    if 1 < b < |ms| {
      BeforeTool(ms[1..], b - 2);
      assert ms[1..][b - 2] == ms[b - 1] && ms[1..][b - 1] == ms[b];
    } else if b == 1 {
      PairedHead(ms[1..]);
    }
  }

  // ---------- the compacted list ----------

  const SUMMARY_OPEN := "【历史对话摘要】以下是之前的完整对话记录，已压缩为摘要：\n\n"
  const SUMMARY_CLOSE := "\n\n【摘要结束】请结合上述历史继续当前对话。"

  function SummaryMessage(text: string): Message {
    Bare(User, HistorySummary, Text(SUMMARY_OPEN + text + SUMMARY_CLOSE))
  }

  function FirstSystem(ms: seq<Message>): Option<Message> {
    if ms == [] then None else if ms[0].role.System? then Some(ms[0]) else FirstSystem(ms[1..])
  }

  /** The message kept in front: the first system message, or failing that the first message. */
  function Head(ms: seq<Message>): Message
    requires ms != []
  {
    match FirstSystem(ms)
    case Some(m) => m
    case None => ms[0]
  }

  /** What stands for the summarised part: a user message of its own kind. */
  predicate SummaryRecord(m: Message) {
    m.role.User? && Summary(m) && !m.runtime && m.calls == []
  }

  function WithSummary(head: Message, summary: Message, tail: seq<Message>): seq<Message> {
    [head, summary] + tail
  }

  function Compacted(head: Message, text: string, tail: seq<Message>): seq<Message> {
    WithSummary(head, SummaryMessage(text), tail)
  }

  function SummaryIndex(ms: seq<Message>): (r: Option<nat>)
    ensures r.Some? ==> r.value < |ms| && Summary(ms[r.value]) && forall i :: 0 <= i < r.value ==> !Summary(ms[i])
    ensures r.None? ==> forall i :: 0 <= i < |ms| ==> !Summary(ms[i])
  {
    if ms == [] then None
    else if Summary(ms[0]) then Some(0)
    else
      match SummaryIndex(ms[1..])
      case None => assert forall i :: 1 <= i < |ms| ==> ms[i] == ms[1..][i - 1]; None
      case Some(i) => assert forall j :: 1 <= j < |ms| ==> ms[j] == ms[1..][j - 1]; Some(i + 1)
  }

  /** The tail that a full compaction would keep; None when there is nothing to compact. */
  function FullTail(ms: seq<Message>, tailN: nat): Option<seq<Message>> {
    if |ms| < 4 || Boundary(ms, tailN) < 1 then None else Some(ms[Boundary(ms, tailN)..])
  }

  /** The same for the messages behind the summary at index s. */
  function SegmentTail(ms: seq<Message>, s: nat, tailN: nat): Option<seq<Message>>
    requires s < |ms|
  {
    var segment := ms[s + 1..];
    if |ms| < 4 || |segment| < 2 || Boundary(segment, tailN) < 1 then None
    else Some(segment[Boundary(segment, tailN)..])
  }

  // ---------- the text handed to the language model ----------

  const MAX_ENTRY := 2000

  function Label(m: Message): string {
    (match m.role
     case System => "SYSTEM"
     case User => "USER"
     case Assistant => "ASSISTANT"
     case Tool => "TOOL") +
    (if m.toolName == "" then "" else " (" + m.toolName + ")")
  }

  function Clipped(text: string): string {
    if |text| <= MAX_ENTRY then text
    else text[..MAX_ENTRY] + "\n……（截断，共 " + Digits(|text|) + " 字符）"
  }

  function EntryText(m: Message): string {
    "[" + Label(m) + "]\n" + Clipped(ContentText(m.content)) + "\n"
  }

  function EntryTexts(ms: seq<Message>): (r: seq<string>)
    ensures |r| == |ms|
  {
    seq(|ms|, i requires 0 <= i < |ms| => EntryText(ms[i]))
  }

  /** Newest first until the limit; the newest entry is kept in any case. */
  function Collected(texts: seq<string>, entries: seq<string>, total: nat, limit: int): seq<string>
    decreases |texts|
  {
    if texts == [] then entries
    else
      var rest, entry := texts[..|texts| - 1], texts[|texts| - 1];
      if total + |entry| <= limit then Collected(rest, [entry] + entries, total + |entry|, limit)
      else if entries != [] then entries
      else Collected(rest, [Shortened(entry, limit)], |Shortened(entry, limit)|, limit)
  }

  function Shortened(entry: string, limit: int): string {
    (if limit <= 0 then "" else if limit >= |entry| then entry else entry[..limit]) + "\n……（截断）\n"
  }

  function HistoryText(ms: seq<Message>, limit: int): string {
    var entries := Collected(EntryTexts(ms), [], 0, limit);
    if entries == [] then "" else JoinLines(entries)
  }

  predicate NotBlank(entries: seq<string>) {
    forall i :: 0 <= i < |entries| ==> !Blank(entries[i])
  }

  lemma {:induction false} CollectedNotBlank(texts: seq<string>, entries: seq<string>, total: nat, limit: int)
    requires NotBlank(entries) && NotBlank(texts)
    ensures NotBlank(Collected(texts, entries, total, limit))
    ensures texts != [] || entries != [] ==> Collected(texts, entries, total, limit) != []
    decreases |texts|
  {
    if texts != [] {
      var rest, entry := texts[..|texts| - 1], texts[|texts| - 1];
      if total + |entry| <= limit {
        CollectedNotBlank(rest, [entry] + entries, total + |entry|, limit);
      } else if entries == [] {
        ShortNotBlank(entry, limit);
        CollectedNotBlank(rest, [Shortened(entry, limit)], |Shortened(entry, limit)|, limit);
      }
    }
  }

  lemma EntryNotBlank(m: Message)
    ensures !Blank(EntryText(m))
  {
    assert EntryText(m)[0] == '[';
  }

  lemma ShortNotBlank(entry: string, limit: int)
    ensures !Blank(Shortened(entry, limit))
  {
    var short := Shortened(entry, limit);
    assert short[|short| - 2] == '）';
  }

  /** The text of at least one message is never blank. */
  lemma HistoryNotBlank(ms: seq<Message>, limit: int)
    requires ms != []
    ensures !Blank(HistoryText(ms, limit))
  {
    forall i | 0 <= i < |ms| ensures !Blank(EntryTexts(ms)[i]) {
      EntryNotBlank(ms[i]);
    }
    CollectedNotBlank(EntryTexts(ms), [], 0, limit);
    JoinNotBlank(Collected(EntryTexts(ms), [], 0, limit));
  }

  lemma JoinNotBlank(entries: seq<string>)
    requires entries != [] && NotBlank(entries)
    ensures !Blank(JoinLines(entries))
  {
    var i :| 0 <= i < |entries[0]| && !IsSpace(entries[0][i]);
    assert JoinLines(entries)[i] == entries[0][i];
  }

  // ---------- the code ----------

  method FullCompress(store: MessageStore, tailN: nat, reply: string) returns (ok: bool)
    modifies store
    ensures ok <==> FullTail(old(store.messages), tailN).Some? && reply != ""
    ensures ok ==>
      store.messages == Compacted(Head(old(store.messages)), Strip(reply), FullTail(old(store.messages), tailN).value)
    ensures ok ==> store.LiveTokens() == EstimateAll(store.messages)
    ensures !ok ==> store.messages == old(store.messages) && store.LiveTokens() == old(store.LiveTokens())
  {
    if |store.messages| < 4 {
      return false;
    }
    var tailStart := FindSafeTailBoundary(store.messages, tailN);
    if tailStart < 1 {
      return false;
    }
    var tail := store.messages[tailStart..];
    if reply == "" {
      return false;
    }
    store.messages := [Head(store.messages), SummaryMessage(Strip(reply))] + tail;
    store.ResetAnchor();
    ok := true;
  }

  /** `mayCommit` is the guard's answer at the moment of committing, `limit` bounds the text
      for the language model. */
  method IncrementalCompress(store: MessageStore, tailN: nat, limit: int, reply: string, mayCommit: bool)
    returns (ok: bool)
    modifies store
    ensures SummaryIndex(old(store.messages)).None? && |old(store.messages)| >= 4 ==>
      var was := old(store.messages);
      && (ok <==> FullTail(was, tailN).Some? && reply != "")
      && (ok ==> store.messages == Compacted(Head(was), Strip(reply), FullTail(was, tailN).value))
    ensures SummaryIndex(old(store.messages)).Some? ==>
      var was := old(store.messages);
      var s := SummaryIndex(was).value;
      && (ok <==> SegmentTail(was, s, tailN).Some? && !Blank(ContentText(was[s].content)) && !Blank(reply) && mayCommit)
      && (ok ==> store.messages == Compacted(Head(was), Strip(reply), SegmentTail(was, s, tailN).value))
    ensures ok ==> |old(store.messages)| >= 4 && store.LiveTokens() == EstimateAll(store.messages)
    ensures !ok ==> store.messages == old(store.messages) && store.LiveTokens() == old(store.LiveTokens())
  {
    if |store.messages| < 4 {
      return false;
    }
    var found := SummaryIndex(store.messages);
    if found.None? {
      ok := FullCompress(store, tailN, reply);
      return;
    }
    var segment := store.messages[found.value + 1..];
    if |segment| < 2 {
      return false;
    }
    var tailStart := FindSafeTailBoundary(segment, tailN);
    if tailStart < 1 {
      return false;
    }
    var tail := segment[tailStart..];
    var earlier := ContentText(store.messages[found.value].content);
    var merged := IncrementalSummarize(earlier, segment[..tailStart], limit, reply);
    if merged.None? {
      return false;
    }
    if !mayCommit {
      return false;
    }
    store.messages := [Head(store.messages), SummaryMessage(merged.value)] + tail;
    store.ResetAnchor();
    ok := true;
  }

  /** The merged summary; `reply` is what the language model would answer. */
  method IncrementalSummarize(oldSummary: string, segment: seq<Message>, limit: int, reply: string)
    returns (r: Option<string>)
    requires segment != []
    ensures r == if Blank(oldSummary) || Blank(reply) then None else Some(Strip(reply))
  {
    if Strip(oldSummary) == "" {
      return None;
    }
    var history := HistoryText(segment, limit);
    if Strip(history) == "" {
      HistoryNotBlank(segment, limit);
      assert false;
    }
    if Strip(reply) == "" {
      return None;
    }
    r := Some(Strip(reply));
  }

  // ---------- what compaction guarantees ----------

  lemma SummaryArranged(head: Message, summary: Message, tail: seq<Message>)
    requires !Carrier(head) && !VisibleTool(head) && !Summary(head) && SummaryRecord(summary)
    requires Paired(tail) && forall i :: 0 <= i < |tail| ==> !tail[i].role.System? && !Summary(tail[i])
    ensures Arranged(WithSummary(head, summary, tail))
  {
    SummaryPlaced(head, summary, tail);
    SoloBefore(summary, tail);
    SummaryTail(head, summary, tail);
  }

  lemma SoloBefore(m: Message, tail: seq<Message>)
    requires Solo(m) && !Carrier(m) && Paired(tail)
    ensures Paired([m] + tail)
  {
    SolosPaired([m]);
    PairedConcat([m], tail);
  }

  lemma SummaryTail(head: Message, summary: Message, tail: seq<Message>)
    ensures WithSummary(head, summary, tail)[1..] == [summary] + tail
  {
  }

  lemma SummaryPlaced(head: Message, summary: Message, tail: seq<Message>)
    requires !Carrier(head) && !VisibleTool(head) && !Summary(head) && SummaryRecord(summary)
    requires forall i :: 0 <= i < |tail| ==> !tail[i].role.System? && !Summary(tail[i])
    ensures Placed(WithSummary(head, summary, tail))
  {
    var r := WithSummary(head, summary, tail);
    assert forall i :: 2 <= i < |r| ==> r[i] == tail[i - 2];
  }

  lemma {:induction false} HeadIsFirst(ms: seq<Message>)
    requires ms != [] && forall i :: 1 <= i < |ms| ==> !ms[i].role.System?
    ensures Head(ms) == ms[0]
  {
    if !ms[0].role.System? {
      NoSystem(ms);
    }
  }

  lemma {:induction false} NoSystem(ms: seq<Message>)
    requires forall i :: 0 <= i < |ms| ==> !ms[i].role.System?
    ensures FirstSystem(ms).None?
  {
    if ms != [] {
      NoSystem(ms[1..]);
    }
  }

  /** Any cut behind the first message and the old summary leaves a self-paired tail. */
  lemma TailSound(ms: seq<Message>, b: nat)
    requires Arranged(ms) && 1 <= b <= |ms| && (b < |ms| ==> !VisibleTool(ms[b]))
    requires b == 1 && |ms| > 1 ==> !Summary(ms[1])
    ensures Paired(ms[b..])
    ensures forall i :: 0 <= i < |ms[b..]| ==> !ms[b..][i].role.System? && !Summary(ms[b..][i])
  {
    PairedCut(ms[1..], b - 1);
    assert ms[1..][b - 1..] == ms[b..];
  }

  /** A full compaction leaves the first message, one summary, and a self-paired tail. */
  lemma FullArranged(ms: seq<Message>, tailN: nat, text: string)
    requires Arranged(ms) && FullTail(ms, tailN).Some?
    ensures Head(ms) == ms[0]
    ensures Arranged(Compacted(Head(ms), text, FullTail(ms, tailN).value))
  {
    HeadIsFirst(ms);
    BoundaryInside(ms, tailN);
    TailSound(ms, Boundary(ms, tailN));
    SummaryArranged(ms[0], SummaryMessage(text), ms[Boundary(ms, tailN)..]);
  }

  lemma SummaryAtOne(ms: seq<Message>)
    requires Arranged(ms) && SummaryIndex(ms).Some?
    ensures SummaryIndex(ms).value == 1
  {
  }

  lemma SegmentArranged(ms: seq<Message>, tailN: nat, text: string)
    requires Arranged(ms) && SummaryIndex(ms).Some? && SegmentTail(ms, SummaryIndex(ms).value, tailN).Some?
    ensures Head(ms) == ms[0]
    ensures Arranged(Compacted(Head(ms), text, SegmentTail(ms, SummaryIndex(ms).value, tailN).value))
  {
    SummaryAtOne(ms);
    HeadIsFirst(ms);
    var segment := ms[2..];
    assert Summary(ms[1..][0]) && ms[1..][1..] == segment;
    var b := Boundary(segment, tailN);
    BoundaryPaired(segment, tailN);
    var tail := segment[b..];
    forall i | 0 <= i < |tail| ensures !tail[i].role.System? && !Summary(tail[i]) {
      assert tail[i] == ms[2 + b + i];
    }
    SummaryArranged(ms[0], SummaryMessage(text), tail);
  }

  /** A full compaction is made exactly when there are at least four messages, more than the
      tail and one, and some of them end in front of a group; what it keeps begins at the
      last such point that leaves `tailN` messages. */
  lemma CompactsIff(ms: seq<Message>, tailN: nat) returns (b: nat)
    ensures FullTail(ms, tailN).Some? <==>
            |ms| >= 4 && |ms| > tailN + 1 && exists i :: 1 <= i <= |ms| - tailN && GroupStart(ms, i)
    ensures FullTail(ms, tailN).Some? ==>
            1 <= b <= |ms| - tailN && GroupStart(ms, b) && FullTail(ms, tailN).value == ms[b..] &&
            forall i :: b < i <= |ms| - tailN ==> !GroupStart(ms, i)
  {
    b := Boundary(ms, tailN);
    if |ms| > tailN + 1 {
      BoundaryLargest(ms, tailN);
    }
  }

  /** The same behind an old summary, whose segment must have two messages. */
  lemma SegmentCompactsIff(ms: seq<Message>, s: nat, tailN: nat) returns (b: nat)
    requires s < |ms|
    ensures var segment := ms[s + 1..];
            SegmentTail(ms, s, tailN).Some? <==>
              |ms| >= 4 && |segment| >= 2 && |segment| > tailN + 1 &&
              exists i :: 1 <= i <= |segment| - tailN && GroupStart(segment, i)
    ensures SegmentTail(ms, s, tailN).Some? ==>
            var segment := ms[s + 1..];
            1 <= b <= |segment| - tailN && GroupStart(segment, b) && SegmentTail(ms, s, tailN).value == segment[b..] &&
            forall i :: b < i <= |segment| - tailN ==> !GroupStart(segment, i)
  {
    var segment := ms[s + 1..];
    b := Boundary(segment, tailN);
    if |segment| > tailN + 1 {
      BoundaryLargest(segment, tailN);
    }
  }

  // ---------- texts ----------

  /** The summary record is a visible user message that holds the reply between its marks. */
  lemma SummaryHolds(reply: string)
    ensures var m := SummaryMessage(reply);
            && SummaryRecord(m) && m == Bare(User, HistorySummary, m.content) && m.content.Text?
            && m.content.text == SUMMARY_OPEN + reply + SUMMARY_CLOSE && Occurs(reply, m.content.text)
  {
    OccursIn(SUMMARY_OPEN, reply, SUMMARY_CLOSE);
  }

  /** The message kept in front is the first system message, wherever it is. */
  lemma {:induction false} HeadIs(ms: seq<Message>, i: nat)
    requires i < |ms| && ms[i].role.System? && forall j :: 0 <= j < i ==> !ms[j].role.System?
    ensures FirstSystem(ms) == Some(ms[i]) && Head(ms) == ms[i]
    decreases i
  {
    if i > 0 {
      HeadIs(ms[1..], i - 1);
    }
  }

  /** Short lists are never cut. */
  lemma ShortList(ms: seq<Message>, tailN: nat)
    ensures |ms| <= tailN + 1 ==> Boundary(ms, tailN) == 0
    ensures |ms| < 4 ==> FullTail(ms, tailN).None?
  {
  }

  /** The entry of a message names its role and tool and holds its text, of a longer one the
      first 2000 characters and its length. */
  lemma EntryTells(m: Message)
    ensures var entry, text := EntryText(m), ContentText(m.content);
            Occurs(RoleName(m.role), entry) && Occurs(m.toolName, entry) && Occurs(Beginning(text), entry)
  {
    var title, kept := Label(m), Clipped(ContentText(m.content));
    LabelTells(m);
    ClippedTells(ContentText(m.content));
    EntryHolds(title, kept);
    OccursWithin(RoleName(m.role), title, EntryText(m));
    OccursWithin(m.toolName, title, EntryText(m));
  }

  lemma EntryHolds(title: string, kept: string)
    ensures Occurs(title, "[" + title + "]\n" + kept + "\n") && Occurs(kept, "[" + title + "]\n" + kept + "\n")
  {
    OccursIn("[" + title + "]\n", kept, "\n");
    OccursIn("[", title, "]\n" + kept + "\n");
    assert "[" + title + ("]\n" + kept + "\n") == "[" + title + "]\n" + kept + "\n";
  }

  function RoleName(role: Role): string {
    match role
    case System => "SYSTEM"
    case User => "USER"
    case Assistant => "ASSISTANT"
    case Tool => "TOOL"
  }

  function Beginning(text: string): string {
    if |text| <= 2000 then text else text[..2000] + "\n……（截断，共 " + Digits(|text|) + " 字符）"
  }

  lemma LabelTells(m: Message)
    ensures Occurs(RoleName(m.role), Label(m)) && Occurs(m.toolName, Label(m))
  {
    var tool := if m.toolName == "" then "" else " (" + m.toolName + ")";
    assert Label(m) == "" + RoleName(m.role) + tool;
    OccursIn("", RoleName(m.role), tool);
    if m.toolName == "" {
      assert BeginsAt("", Label(m), 0);
    } else {
      assert Label(m) == (RoleName(m.role) + " (") + m.toolName + ")";
      OccursIn(RoleName(m.role) + " (", m.toolName, ")");
    }
  }

  lemma ClippedTells(text: string)
    ensures Clipped(text) == Beginning(text) && Occurs(Beginning(text), Clipped(text))
  {
    assert BeginsAt(Beginning(text), Clipped(text), 0);
  }

  function TotalLength(texts: seq<string>): nat {
    if texts == [] then 0 else |texts[0]| + TotalLength(texts[1..])
  }

  lemma {:induction false} LengthLast(texts: seq<string>)
    requires texts != []
    ensures var n := |texts| - 1; TotalLength(texts) == TotalLength(texts[..n]) + |texts[n]|
  {
    var n := |texts| - 1;
    if n > 0 {
      LengthLast(texts[1..]);
      assert texts[1..][..n - 1] == texts[..n][1..] && texts[1..][n - 1] == texts[n];
    } else {
      assert texts[1..] == [] && texts[..0] == [];
    }
  }

  /** Which entries the language model is given: the longest end of the list that fits, and
      of a newest entry too long by itself its beginning. */
  lemma {:induction false} CollectedEnd(texts: seq<string>, entries: seq<string>, total: nat, limit: int)
    returns (k: nat)
    requires entries != [] && total == TotalLength(entries)
    ensures k <= |texts| && Collected(texts, entries, total, limit) == texts[k..] + entries
    ensures k < |texts| ==> TotalLength(texts[k..] + entries) <= limit
    ensures k > 0 ==> TotalLength(texts[k - 1..] + entries) > limit
    decreases |texts|
  {
    if texts == [] {
      k := 0;
      assert texts[0..] + entries == entries;
    } else {
      var n := |texts| - 1;
      var rest, more := texts[..n], [texts[n]] + entries;
      assert more[1..] == entries && texts[n..] + entries == more;
      if total + |texts[n]| <= limit {
        k := CollectedEnd(rest, more, total + |texts[n]|, limit);
        EndsSame(texts, entries, k);
        if k > 0 {
          EndsSame(texts, entries, k - 1);
        }
      } else {
        k := |texts|;
        assert texts[k..] + entries == entries;
      }
    }
  }

  lemma EndsSame(texts: seq<string>, entries: seq<string>, k: nat)
    requires k < |texts|
    ensures var n := |texts| - 1; texts[..n][k..] + ([texts[n]] + entries) == texts[k..] + entries
  {
  }

  /** The end of the entries that the language model is given; a newest one that is too
      long by itself is cut, and goes alone. */
  predicate GivenEnd(entries: seq<string>, limit: int, given: seq<string>, k: nat)
    requires entries != []
  {
    var newest := entries[|entries| - 1];
    if |newest| > limit then given == [(if limit <= 0 then "" else newest[..limit]) + "\n……（截断）\n"]
    else
      && k < |entries| && given == entries[k..]
      && TotalLength(entries[k..]) <= limit && (k > 0 ==> TotalLength(entries[k - 1..]) > limit)
  }

  lemma HistoryIs(ms: seq<Message>, limit: int) returns (given: seq<string>, k: nat)
    requires ms != []
    ensures GivenEnd(EntryTexts(ms), limit, given, k) && given != [] && HistoryText(ms, limit) == JoinLines(given)
  {
    k := NewestFirst(EntryTexts(ms), limit);
    given := Collected(EntryTexts(ms), [], 0, limit);
  }

  lemma NewestFirst(entries: seq<string>, limit: int) returns (k: nat)
    requires entries != []
    ensures GivenEnd(entries, limit, Collected(entries, [], 0, limit), k)
  {
    var n := |entries| - 1;
    var newest, rest := entries[n], entries[..n];
    var first := if |newest| > limit then Shortened(newest, limit) else newest;
    OneEntry(first);
    k := CollectedEnd(rest, [first], |first|, limit);
    if |newest| > limit {
      if k < |rest| {
        LongerThan(rest[k..], [first], limit);
        assert false;
      }
      assert rest[k..] + [first] == [first];
    } else {
      assert [newest] + [] == [newest];
      EndOf(entries, k);
      if k > 0 {
        EndOf(entries, k - 1);
      }
      if k == n {
        assert entries[n..] == [newest];
      }
    }
  }

  lemma OneEntry(entry: string)
    ensures TotalLength([entry]) == |entry|
  {
    assert [entry][1..] == [];
  }

  lemma EndOf(entries: seq<string>, k: nat)
    requires k < |entries|
    ensures entries[..|entries| - 1][k..] + [entries[|entries| - 1]] == entries[k..]
  {
  }

  lemma {:induction false} LongerThan(a: seq<string>, b: seq<string>, limit: int)
    requires b != [] && |b[0]| > limit
    ensures TotalLength(a + b) > limit
  {
    if a == [] {
      assert a + b == b;
    } else {
      assert (a + b)[1..] == a[1..] + b;
      LongerThan(a[1..], b, limit);
    }
  }
}
