/** The conversation transcript: messages, token estimates and tool-call pairing.

    A transcript may hold records flagged `runtime`. They are shown in a timeline
    but never sent to a model, so pairing is a property of the other messages. */
module Messages {

  datatype Role = System | User | Assistant | Tool

  datatype Kind = Plain | Final | Intermediate | ToolCalls | ToolResult | HistorySummary

  datatype Block = TextBlock(text: string) | ImageBlock(name: string) | OtherBlock

  datatype Content = Absent | Text(text: string) | Blocks(blocks: seq<Block>)

  datatype Message = Message(
    role: Role,
    kind: Kind,
    content: Content,
    calls: seq<string>,     // ids declared by an assistant `tool_calls` message
    callId: string,         // id answered by a `tool` message
    toolName: string,
    runtime: bool,          // timeline-only record of a Plan/Goal round
    goalAnswer: bool,       // answer of a goal round put back into the context
    goalId: string,
    goalRound: nat)

  /** A message that carries nothing but a role, a kind and a content. */
  function Bare(role: Role, kind: Kind, content: Content): Message {
    Message(role, kind, content, [], "", "", false, false, "", 0)
  }

  // ---------- token estimates ----------

  /** 1.5 Chinese characters or 4 other characters make one token. */
  function TextTokens(text: string): nat {
    var chinese := ChineseCount(text);
    (8 * chinese + 3 * (|text| - chinese)) / 12
  }

  function ChineseCount(text: string): (n: nat)
    ensures n <= |text|
  {
    if text == "" then 0
    else (if '\U{4E00}' <= text[0] <= '\U{9FFF}' then 1 else 0) + ChineseCount(text[1..])
  }

  const IMAGE_TOKENS := 1000

  function BlockTokens(blocks: seq<Block>): nat {
    if blocks == [] then 0
    else
      (match blocks[0]
       case TextBlock(text) => TextTokens(text)
       case ImageBlock(_) => IMAGE_TOKENS
       case OtherBlock => 0) + BlockTokens(blocks[1..])
  }

  function Tokens(content: Content): nat {
    match content
    case Absent => 0
    case Text(text) => TextTokens(text)
    case Blocks(blocks) => BlockTokens(blocks)
  }

  /** What one message adds to the context estimate: runtime records add nothing. */
  function ContextTokens(m: Message): nat {
    if m.runtime then 0 else Tokens(m.content)
  }

  function EstimateAll(ms: seq<Message>): nat {
    if ms == [] then 0 else ContextTokens(ms[0]) + EstimateAll(ms[1..])
  }

  lemma {:induction false} EstimateConcat(a: seq<Message>, b: seq<Message>)
    ensures EstimateAll(a + b) == EstimateAll(a) + EstimateAll(b)
  {
    if a == [] {
      assert a + b == b;
    } else {
      assert (a + b)[1..] == a[1..] + b;
      EstimateConcat(a[1..], b);
    }
  }

  /** Positions of Chinese characters. */
  function ChineseAt(text: string): set<nat> {
    set i | 0 <= i < |text| && '\U{4E00}' <= text[i] <= '\U{9FFF}'
  }

  lemma {:induction false} ChineseCounted(text: string)
    ensures ChineseCount(text) == |ChineseAt(text)|
  {
    if text == "" {
      assert ChineseAt(text) == {};
    } else {
      var n := |text| - 1;
      ChineseCounted(text[..n]);
      ChineseLast(text);
      var last := if '\U{4E00}' <= text[n] <= '\U{9FFF}' then {n} else {};
      assert ChineseAt(text) == ChineseAt(text[..n]) + last;
    }
  }

  lemma {:induction false} ChineseLast(text: string)
    requires text != ""
    ensures var n := |text| - 1;
            ChineseCount(text) == ChineseCount(text[..n]) + if '\U{4E00}' <= text[n] <= '\U{9FFF}' then 1 else 0
  {
    var n := |text| - 1;
    if n > 0 {
      ChineseLast(text[1..]);
      assert text[1..][..n - 1] == text[..n][1..] && text[1..][n - 1] == text[n];
    } else {
      assert text[1..] == "" && text[..0] == "";
    }
  }

  /** A text costs its Chinese characters over 1.5 and the others over 4, rounded down. */
  lemma TextTokensAre(text: string)
    ensures var chinese := |ChineseAt(text)|;
            TextTokens(text) as real <= chinese as real / 1.5 + (|text| - chinese) as real / 4.0
              < (TextTokens(text) + 1) as real
  {
    ChineseCounted(text);
  }

  /** The context estimate of one message and, with `EstimateConcat`, of every list. */
  lemma EstimateOne(m: Message)
    ensures EstimateAll([m]) == if m.runtime then 0
                                else match m.content
                                  case Absent => 0
                                  case Text(text) => TextTokens(text)
                                  case Blocks(blocks) => BlockTokens(blocks)
  {
    assert [m][1..] == [];
  }

  lemma {:induction false} BlocksConcat(a: seq<Block>, b: seq<Block>)
    ensures BlockTokens(a + b) == BlockTokens(a) + BlockTokens(b)
    ensures BlockTokens([OtherBlock]) == 0 && forall name :: BlockTokens([ImageBlock(name)]) == 1000
    ensures forall text :: BlockTokens([TextBlock(text)]) == TextTokens(text)
  {
    assert forall x: Block :: [x][1..] == [];
    if a == [] {
      assert a + b == b;
    } else {
      assert (a + b)[1..] == a[1..] + b;
      BlocksConcat(a[1..], b);
    }
  }

  // ---------- pairing ----------

  predicate VisibleTool(m: Message) {
    !m.runtime && m.role.Tool?
  }

  /** An assistant message whose declared calls the next messages must answer. */
  predicate Carrier(m: Message) {
    !m.runtime && m.role.Assistant? && m.kind.ToolCalls?
  }

  /** A message that stands alone: timeline-only, or neither declaring nor answering calls. */
  predicate Solo(m: Message) {
    m.runtime || (!m.role.Tool? && m.calls == [])
  }

  predicate Answers(ids: seq<string>, results: seq<Message>) {
    |results| == |ids| &&
    forall i :: 0 <= i < |ids| ==> VisibleTool(results[i]) && results[i].callId == ids[i]
  }

  /** Every carrier is followed at once by one result per declared call, in order, and
      there is no other visible tool message. */
  predicate Paired(ms: seq<Message>) {
    if ms == [] then true
    else if Carrier(ms[0]) then
      var n := |ms[0].calls|;
      1 + n <= |ms| && Answers(ms[0].calls, ms[1..1 + n]) && Paired(ms[1 + n..])
    else
      Solo(ms[0]) && Paired(ms[1..])
  }

  predicate Summary(m: Message) {
    m.kind.HistorySummary?
  }

  predicate SystemHead(m: Message) {
    m.role.System? && !m.runtime
  }

  /** A first message that opens no batch, no other system message, a history summary only
      at index 1. */
  predicate Placed(ms: seq<Message>)
    requires ms != []
  {
    && !Carrier(ms[0]) && !VisibleTool(ms[0]) && !Summary(ms[0])
    && (forall i :: 1 <= i < |ms| ==> !ms[i].role.System?)
    && (forall i :: 2 <= i < |ms| ==> !Summary(ms[i]))
    && (|ms| > 1 && Summary(ms[1]) ==> Solo(ms[1]) && ms[1].role.User?)
  }

  /** A whole transcript between two turns, whatever its first message is. */
  predicate Arranged(ms: seq<Message>) {
    ms == [] || (Paired(ms[1..]) && Placed(ms))
  }

  predicate Headed(ms: seq<Message>) {
    ms == [] || SystemHead(ms[0])
  }

  /** The same with the system message in front. */
  predicate WellFormed(ms: seq<Message>) {
    Arranged(ms) && Headed(ms)
  }

  // ---------- runs of tool messages ----------

  /** Number of leading tool messages. */
  function ToolRun(ms: seq<Message>): (n: nat)
    ensures n <= |ms|
    ensures forall i :: 0 <= i < n ==> ms[i].role.Tool?
    ensures n < |ms| ==> !ms[n].role.Tool?
  {
    if ms == [] || !ms[0].role.Tool? then 0 else 1 + ToolRun(ms[1..])
  }

  lemma {:induction false} RunIs(ms: seq<Message>, n: nat)
    requires n <= |ms| && (forall i :: 0 <= i < n ==> ms[i].role.Tool?)
    requires n < |ms| ==> !ms[n].role.Tool?
    ensures ToolRun(ms) == n
  {
    if n > 0 {
      RunIs(ms[1..], n - 1);
    }
  }

  // ---------- laws of pairing ----------

  lemma InsideRun(ms: seq<Message>, i: nat)
    requires ms != [] && Paired(ms) && Carrier(ms[0]) && 1 <= i <= |ms[0].calls|
    ensures VisibleTool(ms[i])
  {
    assert ms[1..1 + |ms[0].calls|][i - 1] == ms[i];
  }

  lemma CutBehind(ms: seq<Message>, n: nat, i: nat)
    requires 1 <= n <= i <= |ms|
    ensures ms[n..][i - n..] == ms[i..] && ms[n..][..i - n] == ms[..i][n..] && ms[..i][1..n] == ms[1..n]
  {
  }

  /** A list may be cut wherever the right half does not begin with a visible tool message. */
  lemma {:induction false} PairedCut(ms: seq<Message>, i: nat)
    requires Paired(ms) && i <= |ms|
    requires i < |ms| ==> !VisibleTool(ms[i])
    ensures Paired(ms[..i]) && Paired(ms[i..])
    decreases |ms|
  {
    if i == 0 {
      assert ms[..0] == [] && ms[0..] == ms;
    } else {
      var n := if Carrier(ms[0]) then 1 + |ms[0].calls| else 1;
      if i < n {
        InsideRun(ms, i);
        assert false;
      } else {
        CutBehind(ms, n, i);
        PairedCut(ms[n..], i - n);
      }
    }
  }

  /** A visible tool message directly follows another one or a carrier. */
  lemma {:induction false} BeforeTool(ms: seq<Message>, i: nat)
    requires Paired(ms) && i + 1 < |ms|
    ensures VisibleTool(ms[i + 1]) ==> VisibleTool(ms[i]) || Carrier(ms[i])
    decreases |ms|
  {
    var n := if Carrier(ms[0]) then 1 + |ms[0].calls| else 1;
    if i + 1 < n {
      assert i > 0 ==> ms[1..n][i - 1] == ms[i];
    } else if i + 1 == n {
      assert ms[n..][0] == ms[i + 1];
    } else {
      BeforeTool(ms[n..], i - n);
    }
  }

  lemma ConcatFrom(a: seq<Message>, b: seq<Message>, n: nat)
    requires n <= |a|
    ensures (a + b)[n..] == a[n..] + b
    ensures forall i :: 0 <= i <= n ==> (a + b)[i..n] == a[i..n]
  {
  }

  lemma {:induction false} PairedConcat(a: seq<Message>, b: seq<Message>)
    requires Paired(a) && Paired(b)
    ensures Paired(a + b)
    decreases |a|
  {
    if a == [] {
      assert a + b == b;
    } else {
      var n := if Carrier(a[0]) then 1 + |a[0].calls| else 1;
      PairedConcat(a[n..], b);
      ConcatFrom(a, b, n);
    }
  }

  lemma {:induction false} SolosPaired(ms: seq<Message>)
    requires forall i :: 0 <= i < |ms| ==> Solo(ms[i]) && !Carrier(ms[i])
    ensures Paired(ms)
  {
    if ms != [] {
      SolosPaired(ms[1..]);
    }
  }

  /** `b` is `a` with message contents changed and nothing else. */
  predicate SameShape(a: Message, b: Message) {
    b == a.(content := b.content)
  }

  predicate SameShapes(a: seq<Message>, b: seq<Message>) {
    |a| == |b| && forall i :: 0 <= i < |a| ==> SameShape(a[i], b[i])
  }

  lemma {:induction false} PairedShape(a: seq<Message>, b: seq<Message>)
    requires Paired(a) && SameShapes(a, b)
    ensures Paired(b)
    decreases |a|
  {
    if a != [] {
      var n := if Carrier(a[0]) then 1 + |a[0].calls| else 1;
      forall i | 0 <= i < |a[n..]| ensures SameShape(a[n..][i], b[n..][i]) {
        assert SameShape(a[n + i], b[n + i]);
      }
      PairedShape(a[n..], b[n..]);
      if Carrier(a[0]) {
        forall i | 0 <= i < n - 1
          ensures VisibleTool(b[1..n][i]) && b[1..n][i].callId == b[0].calls[i]
        {
          assert SameShape(a[1 + i], b[1 + i]);
          assert a[1..n][i] == a[1 + i];
        }
      }
    }
  }

  /** Rewriting contents keeps the arrangement and the kind of the first message. */
  lemma ArrangedShape(a: seq<Message>, b: seq<Message>)
    requires Arranged(a) && SameShapes(a, b)
    ensures Arranged(b) && (Headed(a) <==> Headed(b))
  {
    if a != [] {
      forall i | 0 <= i < |a[1..]| ensures SameShape(a[1..][i], b[1..][i]) {
        assert SameShape(a[1 + i], b[1 + i]);
      }
      PairedShape(a[1..], b[1..]);
      forall i | 0 <= i < |b| ensures SameShape(a[i], b[i]) {}
    }
  }

  /** Keeping the first message and any cut suffix of the rest. */
  lemma ArrangedSuffix(ms: seq<Message>, i: nat)
    requires Arranged(ms) && 1 <= i <= |ms|
    requires i < |ms| ==> !VisibleTool(ms[i])
    ensures Arranged([ms[0]] + ms[i..])
  {
    PairedCut(ms[1..], i - 1);
    assert ms[1..][i - 1..] == ms[i..];
    assert ([ms[0]] + ms[i..])[1..] == ms[i..];
  }

  /** Appending messages that are paired among themselves. */
  lemma ArrangedAppend(ms: seq<Message>, added: seq<Message>)
    requires Arranged(ms) && ms != []
    requires Paired(added)
    requires forall i :: 0 <= i < |added| ==> !added[i].role.System? && !Summary(added[i])
    ensures Arranged(ms + added) && (Headed(ms) <==> Headed(ms + added))
  {
    PlacedAppend(ms, added);
    PairedConcat(ms[1..], added);
    ConcatFrom(ms, added, 1);
  }

  lemma PlacedAppend(ms: seq<Message>, added: seq<Message>)
    requires ms != [] && Placed(ms)
    requires forall i :: 0 <= i < |added| ==> !added[i].role.System? && !Summary(added[i])
    ensures Placed(ms + added)
  {
    var all := ms + added;
    assert forall i :: 0 <= i < |ms| ==> all[i] == ms[i];
    assert forall i :: |ms| <= i < |all| ==> all[i] == added[i - |ms|];
  }

  /** A batch: one assistant message declaring calls, then their results. */
  lemma BatchPaired(carrier: Message, results: seq<Message>)
    requires Carrier(carrier) && Answers(carrier.calls, results)
    ensures Paired([carrier] + results)
  {
    var ms := [carrier] + results;
    assert ms[1..1 + |carrier.calls|] == results;
    assert ms[1 + |carrier.calls|..] == [];
  }
}
