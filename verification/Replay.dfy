/** Rebuilding a transcript from stored turn nodes: `_tool_run_messages`,
    `_turn_nodes_to_messages` and `_apply_history_messages` (gateway/agent_factory.py). */
module Replay {
  import opened Text
  import opened Messages
  import opened MessageStorage

  datatype Node =
    | UserNode(text: string, images: seq<string>)
    | AssistantNode(text: string, final: bool, intermediate: bool)
    | ToolNode(nodeId: string, storedId: string, tool: string, args: string,
               argsParse: bool,  // `args` is the JSON text of an object or a list
               result: string)
    | OtherNode            // reasoning, status: shown, never replayed

  const NO_RESULT := "(历史回放：工具结果未记录)"

  function CallId(n: Node): string
    requires n.ToolNode?
  {
    if Blank(n.storedId) then "replay-" + n.nodeId else Strip(n.storedId)
  }

  /** The native result of a tool node whose arguments survived. */
  function ResultOf(n: Node): Message
    requires n.ToolNode?
  {
    Bare(Tool, ToolResult, Text(if n.result == "" then NO_RESULT else n.result))
      .(callId := CallId(n), toolName := n.tool)
  }

  /** The plain note that stands for a tool node whose arguments were cut off. */
  function NoteOf(n: Node): string
    requires n.ToolNode?
  {
    "[历史回放] 调用工具 " + n.tool +
    (if n.args == "" then "" else "，参数(摘要): " + n.args) +
    (if n.result == "" then "" else "\n[历史回放] 工具结果(摘要): " + n.result)
  }

  predicate AllTools(run: seq<Node>) {
    forall i :: 0 <= i < |run| ==> run[i].ToolNode?
  }

  function Results(run: seq<Node>): seq<Message>
    requires AllTools(run)
  {
    if run == [] then []
    else (if run[0].argsParse then [ResultOf(run[0])] else []) + Results(run[1..])
  }

  function Ids(run: seq<Node>): seq<string>
    requires AllTools(run)
  {
    if run == [] then []
    else (if run[0].argsParse then [CallId(run[0])] else []) + Ids(run[1..])
  }

  function Notes(run: seq<Node>): seq<string>
    requires AllTools(run)
  {
    if run == [] then []
    else (if run[0].argsParse then [] else [NoteOf(run[0])]) + Notes(run[1..])
  }

  function RunMessages(base: string, run: seq<Node>): seq<Message>
    requires AllTools(run)
  {
    var parts := (if base == "" then [] else [base]) + Notes(run);
    var content := if parts == [] then Absent else Text(JoinLines(parts));
    if Ids(run) != [] then [Bare(Assistant, ToolCalls, content).(calls := Ids(run))] + Results(run)
    else if parts == [] then []
    else [Bare(Assistant, Intermediate, content)]
  }

  function Names(images: seq<string>): string {
    if images == [] then "" else if |images| == 1 then images[0] else images[0] + "、" + Names(images[1..])
  }

  function UserText(n: Node): string
    requires n.UserNode?
  {
    if n.images == [] then n.text
    else (if Blank(n.text) then "" else n.text + "\n") + "[图片已存档: " + Names(n.images) + "]"
  }

  function UserMessages(n: Node): seq<Message>
    requires n.UserNode?
  {
    if Blank(UserText(n)) then [] else [Bare(User, Plain, Text(UserText(n)))]
  }

  function AnswerMessages(n: Node): seq<Message>
    requires n.AssistantNode?
  {
    if Blank(n.text) then []
    else [Bare(Assistant, if n.intermediate then Intermediate else if n.final then Final else Plain, Text(n.text))]
  }

  /** Number of leading tool nodes. */
  function ToolNodes(nodes: seq<Node>): (n: nat)
    ensures n <= |nodes| && AllTools(nodes[..n])
    ensures n < |nodes| ==> !nodes[n].ToolNode?
  {
    if nodes == [] || !nodes[0].ToolNode? then 0
    else
      var n := 1 + ToolNodes(nodes[1..]);
      assert forall i :: 1 <= i < n ==> nodes[..n][i] == nodes[1..][..n - 1][i - 1];
      n
  }

  function Replayable(nodes: seq<Node>): (r: seq<Node>)
    ensures forall i :: 0 <= i < |r| ==> !r[i].OtherNode?
  {
    if nodes == [] then []
    else if nodes[0].OtherNode? then Replayable(nodes[1..]) else [nodes[0]] + Replayable(nodes[1..])
  }

  /** How many nodes the first one takes along: an assistant text or a tool node, the
      tool nodes behind it. */
  function Taken(items: seq<Node>): (n: nat)
    requires items != []
    ensures 1 <= n <= |items| && AllTools(items[1..n])
    ensures items[0].ToolNode? ==> AllTools(items[..n])
  {
    var n := 1 + if items[0].AssistantNode? || items[0].ToolNode? then ToolNodes(items[1..]) else 0;
    assert items[1..n] == items[1..][..n - 1];
    assert items[..n] == [items[0]] + items[1..n];
    n
  }

  /** The messages that the first node and those it takes along become. */
  function Part(items: seq<Node>): seq<Message>
    requires items != []
  {
    match items[0]
    case UserNode(_, _) => UserMessages(items[0])
    case AssistantNode(text, _, _) =>
      if Taken(items) > 1 then RunMessages(text, items[1..Taken(items)]) else AnswerMessages(items[0])
    case ToolNode(_, _, _, _, _, _) => RunMessages("", items[..Taken(items)])
    case OtherNode => []
  }

  /** The messages of one turn. */
  function Turn(items: seq<Node>): seq<Message>
    decreases |items|
  {
    if items == [] then [] else Part(items) + Turn(items[Taken(items)..])
  }

  // ---------- the code ----------

  method ToolRunMessages(base: string, run: seq<Node>) returns (ms: seq<Message>)
    requires AllTools(run)
    ensures ms == RunMessages(base, run)
  {
    var ids: seq<string> := [];
    var results: seq<Message> := [];
    var notes: seq<string> := [];
    var i := 0;
    while i < |run|
      invariant 0 <= i <= |run|
      invariant ids + Ids(run[i..]) == Ids(run)
      invariant results + Results(run[i..]) == Results(run)
      invariant notes + Notes(run[i..]) == Notes(run)
    {
      RunStep(run, i, ids, results, notes);
      if run[i].argsParse {
        ids := ids + [CallId(run[i])];
        results := results + [ResultOf(run[i])];
      } else {
        notes := notes + [NoteOf(run[i])];
      }
      i := i + 1;
    }
    assert ids == Ids(run) && results == Results(run) && notes == Notes(run);
    var parts := (if base == "" then [] else [base]) + notes;
    var content := if parts == [] then Absent else Text(JoinLines(parts));
    if ids != [] {
      ms := [Bare(Assistant, ToolCalls, content).(calls := ids)] + results;
    } else if parts != [] {
      ms := [Bare(Assistant, Intermediate, content)];
    } else {
      ms := [];
    }
  }

  lemma RunStep(run: seq<Node>, i: nat, ids: seq<string>, results: seq<Message>, notes: seq<string>)
    requires AllTools(run) && i < |run|
    ensures var n, rest, whole := run[i], run[i + 1..], run[i..];
            && ids + Ids(whole) == (if n.argsParse then ids + [CallId(n)] else ids) + Ids(rest)
            && results + Results(whole) == (if n.argsParse then results + [ResultOf(n)] else results) + Results(rest)
            && notes + Notes(whole) == (if n.argsParse then notes else notes + [NoteOf(n)]) + Notes(rest)
  {
    var rest := run[i + 1..];
    assert run[i..][1..] == rest;
    Regroup(ids, if run[i].argsParse then [CallId(run[i])] else [], Ids(rest));
    Regroup(results, if run[i].argsParse then [ResultOf(run[i])] else [], Results(rest));
    Regroup(notes, if run[i].argsParse then [] else [NoteOf(run[i])], Notes(rest));
  }

  lemma Regroup<T>(done: seq<T>, now: seq<T>, rest: seq<T>)
    ensures done + (now + rest) == (if now == [] then done else done + now) + rest
  {
  }

  /** The end of the tool run that begins at `start`. */
  method RunEnd(items: seq<Node>, start: nat) returns (k: nat)
    requires start <= |items|
    ensures k == start + ToolNodes(items[start..]) && AllTools(items[start..k])
  {
    k := start;
    while k < |items| && items[k].ToolNode?
      invariant start <= k <= |items|
      invariant start + ToolNodes(items[start..]) == k + ToolNodes(items[k..])
    {
      assert items[k..][1..] == items[k + 1..];
      k := k + 1;
    }
    assert items[start..k] == items[start..][..k - start];
  }

  /** The messages of the item at `idx`, with the tool run it heads, and where to go on. */
  method NextItem(items: seq<Node>, idx: nat) returns (ms: seq<Message>, next: nat)
    requires idx < |items| && !items[idx].OtherNode?
    ensures ms == Part(items[idx..]) && next == idx + Taken(items[idx..])
  {
    ghost var left := items[idx..];
    PartAt(items, idx);
    next := idx + 1;
    if items[idx].UserNode? {
      ms := UserMessages(items[idx]);
    } else if items[idx].AssistantNode? {
      var k := RunEnd(items, idx + 1);
      if k > idx + 1 {
        assert left[1..Taken(left)] == items[idx + 1..k];
        ms := ToolRunMessages(items[idx].text, items[idx + 1..k]);
        next := k;
      } else {
        ms := AnswerMessages(items[idx]);
      }
    } else {
      var k := RunEnd(items, idx);
      assert left[..Taken(left)] == items[idx..k];
      ms := ToolRunMessages("", items[idx..k]);
      next := k;
    }
  }

  /** The first part of what is left, in terms of the whole list. */
  lemma PartAt(items: seq<Node>, idx: nat)
    requires idx < |items|
    ensures var n, k, left := items[idx], idx + Taken(items[idx..]), items[idx..];
            && left[0] == n
            && (n.AssistantNode? || n.ToolNode? ==> k == idx + 1 + ToolNodes(items[idx + 1..]))
            && (n.ToolNode? ==> k == idx + ToolNodes(left))
            && (n.UserNode? ==> k == idx + 1)
            && left[..k - idx] == items[idx..k] && left[1..k - idx] == items[idx + 1..k]
  {
    assert items[idx..][1..] == items[idx + 1..];
  }

  method TurnNodesToMessages(nodes: seq<Node>) returns (ms: seq<Message>)
    ensures ms == Turn(Replayable(nodes))
  {
    var items := Replayable(nodes);
    ms := [];
    var idx := 0;
    ghost var todo := Turn(items);
    assert items[0..] == items && [] + todo == todo;
    while idx < |items|
      invariant 0 <= idx <= |items|
      invariant todo == Turn(items[idx..]) && ms + todo == Turn(items)
    {
      var part, next := NextItem(items, idx);
      TurnStep(items, idx, ms);
      ms := ms + part;
      idx, todo := next, Turn(items[next..]);
    }
    assert todo == [];
  }

  lemma TurnStep(items: seq<Node>, idx: nat, done: seq<Message>)
    requires idx < |items|
    ensures done + Turn(items[idx..]) == done + Part(items[idx..]) + Turn(items[idx + Taken(items[idx..])..])
  {
    assert items[idx..][Taken(items[idx..])..] == items[idx + Taken(items[idx..])..];
  }

  /** Replace the history and put the system prompt in front unless it is already there.
      A replayed history, which has no system message, comes out well formed and unchanged
      behind the prompt. */
  method ApplyHistory(store: MessageStore, history: seq<Message>, prompt: string)
    modifies store`messages
    ensures store.messages == Applied(history, prompt)
    ensures Paired(history) && Ordinary(history) ==>
      && WellFormed(store.messages) && store.messages[0].content == Text(prompt)
      && store.messages[1..] == history
  {
    store.messages := history;
    if store.messages == [] || !store.messages[0].role.System? || store.messages[0].content != Text(prompt) {
      store.messages := [Bare(System, Plain, Text(prompt))] + store.messages;
    }
    if Paired(history) && Ordinary(history) {
      assert ([Bare(System, Plain, Text(prompt))] + history)[1..] == history;
    }
  }

  function Applied(history: seq<Message>, prompt: string): seq<Message> {
    if history == [] || !history[0].role.System? || history[0].content != Text(prompt)
    then [Bare(System, Plain, Text(prompt))] + history
    else history
  }

  // ---------- what replay guarantees ----------

  lemma {:induction false} ResultsAnswer(run: seq<Node>)
    requires AllTools(run)
    ensures Answers(Ids(run), Results(run))
  {
    if run != [] {
      ResultsAnswer(run[1..]);
    }
  }

  lemma RunPaired(base: string, run: seq<Node>)
    requires AllTools(run)
    ensures Paired(RunMessages(base, run))
  {
    ResultsAnswer(run);
    if Ids(run) != [] {
      BatchPaired(RunMessages(base, run)[0], Results(run));
    } else {
      SolosPaired(RunMessages(base, run));
    }
  }

  lemma PartPaired(items: seq<Node>)
    requires items != []
    ensures Paired(Part(items))
  {
    match items[0] {
      case UserNode(_, _) => SolosPaired(UserMessages(items[0]));
      case AssistantNode(text, _, _) =>
        RunPaired(text, items[1..Taken(items)]);
        SolosPaired(AnswerMessages(items[0]));
      case ToolNode(_, _, _, _, _, _) => RunPaired("", items[..Taken(items)]);
      case OtherNode =>
    }
  }

  /** Whatever was stored, the replayed messages are paired. */
  lemma {:induction false} TurnPaired(items: seq<Node>)
    ensures Paired(Turn(items))
    decreases |items|
  {
    if items != [] {
      PartPaired(items);
      TurnPaired(items[Taken(items)..]);
      PairedConcat(Part(items), Turn(items[Taken(items)..]));
    }
  }

  /** Ids of the tool messages of a list. */
  function Answered(ms: seq<Message>): seq<string> {
    if ms == [] then []
    else (if ms[0].role.Tool? then [ms[0].callId] else []) + Answered(ms[1..])
  }

  lemma {:induction false} AnsweredConcat(a: seq<Message>, b: seq<Message>)
    ensures Answered(a + b) == Answered(a) + Answered(b)
  {
    if a == [] {
      assert a + b == b;
    } else {
      assert (a + b)[1..] == a[1..] + b;
      AnsweredConcat(a[1..], b);
    }
  }

  function StoredCalls(items: seq<Node>): seq<string> {
    if items == [] then []
    else (if items[0].ToolNode? && items[0].argsParse then [CallId(items[0])] else []) + StoredCalls(items[1..])
  }

  lemma {:induction false} StoredConcat(a: seq<Node>, b: seq<Node>)
    ensures StoredCalls(a + b) == StoredCalls(a) + StoredCalls(b)
  {
    if a == [] {
      assert a + b == b;
    } else {
      assert (a + b)[1..] == a[1..] + b;
      StoredConcat(a[1..], b);
    }
  }

  lemma StoredCut(items: seq<Node>, n: nat)
    requires n <= |items|
    ensures StoredCalls(items) == StoredCalls(items[..n]) + StoredCalls(items[n..])
  {
    CutWhole(items, n);
    StoredConcat(items[..n], items[n..]);
  }

  lemma CutWhole(items: seq<Node>, n: nat)
    requires n <= |items|
    ensures items[..n] + items[n..] == items
  {
  }

  lemma {:induction false} RunCalls(run: seq<Node>)
    requires AllTools(run)
    ensures Answered(Results(run)) == Ids(run) == StoredCalls(run)
  {
    if run != [] {
      RunCalls(run[1..]);
      AnsweredConcat(if run[0].argsParse then [ResultOf(run[0])] else [], Results(run[1..]));
    }
  }

  lemma RunAnswered(base: string, run: seq<Node>)
    requires AllTools(run)
    ensures Answered(RunMessages(base, run)) == StoredCalls(run)
  {
    RunCalls(run);
    if Ids(run) != [] {
      AnsweredBehind(RunMessages(base, run)[0], Results(run));
    }
  }

  lemma AnsweredBehind(m: Message, results: seq<Message>)
    requires !m.role.Tool?
    ensures Answered([m] + results) == Answered(results)
  {
    assert ([m] + results)[1..] == results;
  }

  lemma PartAnswered(items: seq<Node>)
    requires items != []
    ensures Answered(Part(items)) == StoredCalls(items[..Taken(items)])
  {
    var n := Taken(items);
    if items[0].ToolNode? {
      RunAnswered("", items[..n]);
    } else {
      assert items[..n] == [items[0]] + items[1..n];
      if items[0].AssistantNode? && n > 1 {
        RunAnswered(items[0].text, items[1..n]);
      } else {
        assert items[..1][1..] == [] && |Part(items)| <= 1;
        assert |Part(items)| == 1 ==> Part(items)[1..] == [];
      }
    }
  }

  /** Each tool node with usable arguments comes back exactly once, in the stored order. */
  lemma {:induction false} TurnKeepsCalls(items: seq<Node>)
    ensures Answered(Turn(items)) == StoredCalls(items)
    decreases |items|
  {
    if items != [] {
      var n := Taken(items);
      PartAnswered(items);
      TurnKeepsCalls(items[n..]);
      AnsweredConcat(Part(items), Turn(items[n..]));
      StoredCut(items, n);
    }
  }

  predicate Ordinary(ms: seq<Message>) {
    forall i :: 0 <= i < |ms| ==>
      !ms[i].role.System? && !Summary(ms[i]) && !ms[i].runtime && !ms[i].goalAnswer
  }

  lemma {:induction false} ResultsOrdinary(run: seq<Node>)
    requires AllTools(run)
    ensures Ordinary(Results(run))
  {
    if run != [] {
      ResultsOrdinary(run[1..]);
    }
  }

  lemma PartOrdinary(items: seq<Node>)
    requires items != []
    ensures Ordinary(Part(items))
  {
    var n := Taken(items);
    match items[0] {
      case AssistantNode(_, _, _) => ResultsOrdinary(items[1..n]);
      case ToolNode(_, _, _, _, _, _) => ResultsOrdinary(items[..n]);
      case _ =>
    }
  }

  lemma {:induction false} TurnOrdinary(items: seq<Node>)
    ensures Ordinary(Turn(items))
    decreases |items|
  {
    if items != [] {
      PartOrdinary(items);
      TurnOrdinary(items[Taken(items)..]);
    }
  }

  /** The turns of a conversation, oldest first. */
  function History(turns: seq<seq<Node>>): seq<Message> {
    if turns == [] then [] else Turn(Replayable(turns[0])) + History(turns[1..])
  }

  lemma {:induction false} HistorySound(turns: seq<seq<Node>>)
    ensures Paired(History(turns)) && Ordinary(History(turns))
  {
    if turns != [] {
      TurnPaired(Replayable(turns[0]));
      TurnOrdinary(Replayable(turns[0]));
      HistorySound(turns[1..]);
      PairedConcat(Turn(Replayable(turns[0])), History(turns[1..]));
    }
  }

  /** A restored transcript is well formed, whatever nodes were stored. */
  lemma RestoredWellFormed(turns: seq<seq<Node>>, prompt: string)
    ensures WellFormed(Applied(History(turns), prompt))
  {
    HistorySound(turns);
    assert ([Bare(System, Plain, Text(prompt))] + History(turns))[1..] == History(turns);
  }

  // ---------- what comes back of each node ----------

  /** A node list may be cut where no tool run is cut from the node that heads it. */
  predicate Separate(a: seq<Node>, b: seq<Node>) {
    b == [] || !b[0].ToolNode? || (a != [] && a[|a| - 1].UserNode?)
  }

  lemma {:induction false} RunEnds(a: seq<Node>, b: seq<Node>)
    requires b == [] || !b[0].ToolNode? || (a != [] && !a[|a| - 1].ToolNode?)
    ensures ToolNodes(a + b) == ToolNodes(a)
  {
    if a == [] {
      assert a + b == b;
    } else if a[0].ToolNode? {
      assert (a + b)[1..] == a[1..] + b;
      RunEnds(a[1..], b);
    }
  }

  lemma PartBefore(a: seq<Node>, b: seq<Node>)
    requires a != [] && Separate(a, b)
    ensures Taken(a + b) == Taken(a) && Part(a + b) == Part(a)
  {
    var n := Taken(a);
    if a[0].AssistantNode? || a[0].ToolNode? {
      assert (a + b)[1..] == a[1..] + b;
      RunEnds(a[1..], b);
    }
    SlicesBefore(a, b, n);
  }

  lemma SlicesBefore(a: seq<Node>, b: seq<Node>, n: nat)
    requires 1 <= n <= |a|
    ensures (a + b)[1..n] == a[1..n] && (a + b)[..n] == a[..n] && (a + b)[n..] == a[n..] + b
  {
  }

  /** Cut there, the two halves are replayed one behind the other. */
  lemma {:induction false} TurnConcat(a: seq<Node>, b: seq<Node>)
    requires Separate(a, b)
    ensures Turn(a + b) == Turn(a) + Turn(b)
    decreases |a|
  {
    if a == [] {
      assert a + b == b && [] + Turn(b) == Turn(b);
    } else {
      var rest := a[Taken(a)..];
      TurnFront(a, b);
      assert Turn(rest + b) == Turn(rest) + Turn(b) by {
        if rest == [] {
          assert rest + b == b && [] + Turn(b) == Turn(b);
        } else {
          SeparateRest(a, b, Taken(a));
          TurnConcat(rest, b);
        }
      }
      Halves(Turn(a + b), Turn(a), Part(a), Turn(rest), Turn(b), Turn(rest + b));
    }
  }

  lemma SeparateRest(a: seq<Node>, b: seq<Node>, n: nat)
    requires n < |a| && Separate(a, b)
    ensures Separate(a[n..], b)
  {
    assert a[n..][|a[n..]| - 1] == a[|a| - 1];
  }

  lemma Halves(whole: seq<Message>, left: seq<Message>, part: seq<Message>, rest: seq<Message>, b: seq<Message>,
               behind: seq<Message>)
    requires whole == part + behind && left == part + rest && behind == rest + b
    ensures whole == left + b
  {
  }

  lemma TurnFront(a: seq<Node>, b: seq<Node>)
    requires a != [] && Separate(a, b)
    ensures var rest := a[Taken(a)..];
            Turn(a + b) == Part(a) + Turn(rest + b) && Turn(a) == Part(a) + Turn(rest)
  {
    PartBefore(a, b);
    SlicesBefore(a, b, Taken(a));
  }

  predicate Speaks(n: Node) {
    n.UserNode? && !(n.images == [] && Blank(n.text))
  }

  predicate Usable(n: Node) {
    n.ToolNode? && n.argsParse
  }

  predicate CutOff(n: Node) {
    n.ToolNode? && !n.argsParse
  }

  predicate FromUser(m: Message) {
    m.role.User?
  }

  predicate FromTool(m: Message) {
    m.role.Tool?
  }

  predicate FromAssistant(m: Message) {
    m.role.Assistant?
  }

  /** The user's own text; archived images are named behind it. */
  predicate Echoes(m: Message, n: Node) {
    && Speaks(n) && m.content.Text? && m == Bare(User, Plain, m.content)
    && m.content.text ==
         if n.images == [] then n.text
         else (if Blank(n.text) then "" else n.text + "\n") + "[图片已存档: " + Names(n.images) + "]"
  }

  /** The result as it was stored, under the id of its call. */
  predicate Recalls(m: Message, n: Node) {
    && Usable(n) && m.content.Text?
    && m == Bare(Tool, ToolResult, m.content).(callId := m.callId, toolName := n.tool)
    && m.callId == (if Blank(n.storedId) then "replay-" + n.nodeId else Strip(n.storedId))
    && m.content.text == if n.result == "" then "(历史回放：工具结果未记录)" else n.result
  }

  predicate AllEcho(ms: seq<Message>, nodes: seq<Node>) {
    |ms| == |nodes| && forall i :: 0 <= i < |ms| ==> Echoes(ms[i], nodes[i])
  }

  predicate AllRecall(ms: seq<Message>, nodes: seq<Node>) {
    |ms| == |nodes| && forall i :: 0 <= i < |ms| ==> Recalls(ms[i], nodes[i])
  }

  lemma NamesConcat(a: seq<string>, b: seq<string>)
    requires a != [] && b != []
    ensures Names(a + b) == Names(a) + "、" + Names(b) && forall x :: Names([x]) == x
    decreases |a|
  {
    assert (a + b)[1..] == a[1..] + b;
    if |a| > 1 {
      NamesConcat(a[1..], b);
    }
  }

  lemma ResultRecalls(n: Node)
    requires n.ToolNode?
    ensures Usable(n) ==> Recalls(ResultOf(n), n)
  {
  }

  lemma RecallConcat(a: seq<Message>, b: seq<Message>, c: seq<Node>, d: seq<Node>)
    requires AllRecall(a, c) && AllRecall(b, d)
    ensures AllRecall(a + b, c + d)
  {
    forall i | 0 <= i < |a + b| ensures Recalls((a + b)[i], (c + d)[i]) {
      assert if i < |a| then Recalls(a[i], c[i]) else Recalls(b[i - |a|], d[i - |a|]);
    }
  }

  lemma EchoConcat(a: seq<Message>, b: seq<Message>, c: seq<Node>, d: seq<Node>)
    requires AllEcho(a, c) && AllEcho(b, d)
    ensures AllEcho(a + b, c + d)
  {
    forall i | 0 <= i < |a + b| ensures Echoes((a + b)[i], (c + d)[i]) {
      assert if i < |a| then Echoes(a[i], c[i]) else Echoes(b[i - |a|], d[i - |a|]);
    }
  }

  lemma UserEchoes(n: Node)
    requires n.UserNode?
    ensures if Speaks(n) then |UserMessages(n)| == 1 && Echoes(UserMessages(n)[0], n) else UserMessages(n) == []
  {
    var text := UserText(n);
    if n.images != [] {
      assert text[|text| - 1] == ']' && !IsSpace(']');
    }
    assert Speaks(n) ==> UserMessages(n) == [Bare(User, Plain, Text(text))];
  }

  lemma {:induction false} RunResults(run: seq<Node>)
    requires AllTools(run)
    ensures AllRecall(Results(run), Where(run, Usable))
  {
    if run != [] {
      var n, rest := run[0], run[1..];
      RunResults(rest);
      ResultRecalls(n);
      FirstResult(run);
      RecallConcat(if n.argsParse then [ResultOf(n)] else [], Results(rest), if n.argsParse then [n] else [],
                   Where(rest, Usable));
    }
  }

  lemma FirstResult(run: seq<Node>)
    requires run != [] && AllTools(run)
    ensures AllTools(run[1..])
    ensures Results(run) == (if run[0].argsParse then [ResultOf(run[0])] else []) + Results(run[1..])
    ensures Where(run, Usable) == (if run[0].argsParse then [run[0]] else []) + Where(run[1..], Usable)
  {
  }

  lemma RunRecalls(base: string, run: seq<Node>)
    requires AllTools(run)
    ensures AllRecall(Where(RunMessages(base, run), FromTool), Where(run, Usable))
    ensures Where(RunMessages(base, run), FromUser) == []
  {
    RunResults(run);
    ResultsAnswer(run);
    if Ids(run) != [] {
      CarrierWhere(RunMessages(base, run)[0], Results(run));
    } else {
      assert Results(run) == [];
      WhereNone(RunMessages(base, run), FromUser);
      WhereNone(RunMessages(base, run), FromTool);
    }
  }

  lemma CarrierWhere(m: Message, results: seq<Message>)
    requires m.role.Assistant? && forall i :: 0 <= i < |results| ==> results[i].role.Tool?
    ensures Where([m] + results, FromTool) == results && Where([m] + results, FromUser) == []
  {
    WhereConcat([m], results, FromTool);
    WhereConcat([m], results, FromUser);
    WhereNone([m], FromTool);
    WhereNone([m], FromUser);
    WhereAll(results, FromTool);
    WhereNone(results, FromUser);
  }

  lemma PartRecalls(items: seq<Node>)
    requires items != []
    ensures AllEcho(Where(Part(items), FromUser), Where(items[..Taken(items)], Speaks))
    ensures AllRecall(Where(Part(items), FromTool), Where(items[..Taken(items)], Usable))
  {
    var n := Taken(items);
    if items[0].ToolNode? {
      RunRecalls("", items[..n]);
      WhereNone(items[..n], Speaks);
    } else if items[0].AssistantNode? && n > 1 {
      RunRecalls(items[0].text, items[1..n]);
      HeadedRun(items, n);
    } else {
      assert items[..n] == [items[0]];
      AloneRecalls(items);
    }
  }

  lemma HeadedRun(items: seq<Node>, n: nat)
    requires 1 <= n <= |items| && AllTools(items[1..n]) && items[0].AssistantNode?
    ensures Where(items[..n], Speaks) == [] && Where(items[..n], Usable) == Where(items[1..n], Usable)
  {
    assert items[..n] == [items[0]] + items[1..n];
    WhereConcat([items[0]], items[1..n], Usable);
    WhereConcat([items[0]], items[1..n], Speaks);
    OneNode(items[0]);
    WhereNone(items[1..n], Speaks);
  }

  lemma AloneRecalls(items: seq<Node>)
    requires items != [] && Taken(items) == 1 && !items[0].ToolNode?
    ensures AllEcho(Where(Part(items), FromUser), Where([items[0]], Speaks))
    ensures AllRecall(Where(Part(items), FromTool), Where([items[0]], Usable))
  {
    OneNode(items[0]);
    if items[0].UserNode? {
      UserEchoes(items[0]);
    }
    OneMessage(Part(items));
  }

  lemma OneNode(n: Node)
    ensures Where([n], Speaks) == (if Speaks(n) then [n] else [])
    ensures Where([n], Usable) == if Usable(n) then [n] else []
  {
    assert [n][1..] == [];
  }

  lemma OneMessage(ms: seq<Message>)
    requires |ms| <= 1
    ensures Where(ms, FromUser) == (if ms != [] && ms[0].role.User? then ms else [])
    ensures Where(ms, FromTool) == if ms != [] && ms[0].role.Tool? then ms else []
  {
    assert ms != [] ==> ms == [ms[0]] && ms[1..] == [];
  }

  /** The user messages are the stored ones that say something, and the tool messages the
      results of the calls whose arguments survived, each in the stored order. */
  lemma {:induction false} TurnRecalls(items: seq<Node>)
    ensures AllEcho(Where(Turn(items), FromUser), Where(items, Speaks))
    ensures AllRecall(Where(Turn(items), FromTool), Where(items, Usable))
    decreases |items|
  {
    if items != [] {
      var n := Taken(items);
      PartRecalls(items);
      TurnRecalls(items[n..]);
      CutWhole(items, n);
      WhereConcat(items[..n], items[n..], Speaks);
      WhereConcat(items[..n], items[n..], Usable);
      WhereConcat(Part(items), Turn(items[n..]), FromUser);
      WhereConcat(Part(items), Turn(items[n..]), FromTool);
      EchoConcat(Where(Part(items), FromUser), Where(Turn(items[n..]), FromUser),
                 Where(items[..n], Speaks), Where(items[n..], Speaks));
      RecallConcat(Where(Part(items), FromTool), Where(Turn(items[n..]), FromTool),
                   Where(items[..n], Usable), Where(items[n..], Usable));
    }
  }

  predicate Shown(n: Node) {
    !n.OtherNode?
  }

  lemma {:induction false} ReplayableIs(nodes: seq<Node>)
    ensures Replayable(nodes) == Where(nodes, Shown)
  {
    if nodes != [] {
      ReplayableIs(nodes[1..]);
    }
  }

  /** An assistant text that heads no tool run comes back alone, marked as it was. */
  lemma AnswerReplayed(a: seq<Node>, n: Node, b: seq<Node>)
    requires n.AssistantNode? && (b == [] || !b[0].ToolNode?)
    ensures Turn(a + [n] + b) ==
            Turn(a) + (if Blank(n.text) then []
                       else [Bare(Assistant, if n.intermediate then Intermediate else if n.final then Final else Plain,
                                  Text(n.text))]) + Turn(b)
  {
    TurnConcat(a + [n], b);
    TurnConcat(a, [n]);
    AloneTaken(n);
  }

  lemma AloneTaken(n: Node)
    requires n.AssistantNode?
    ensures Turn([n]) == AnswerMessages(n)
  {
    assert [n][1..] == [];
  }

  /** A tool run with the text in front of it: one carrier with all usable calls, followed
      by their results; without a usable call one intermediate message, if there is a text. */
  lemma RunReplayed(a: seq<Node>, head: seq<Node>, run: seq<Node>, b: seq<Node>)
    requires |head| <= 1 && (head != [] ==> head[0].AssistantNode?)
    requires head == [] ==> a == [] || a[|a| - 1].UserNode? || a[|a| - 1].OtherNode?
    requires run != [] && AllTools(run) && (b == [] || !b[0].ToolNode?)
    ensures var parts := (if head == [] || head[0].text == "" then [] else [head[0].text]) + Notes(run);
            var content := if parts == [] then Absent else Text(JoinLines(parts));
            Turn(a + head + run + b) ==
              Turn(a) +
              (if Where(run, Usable) != [] then [Bare(Assistant, ToolCalls, content).(calls := Ids(run))] + Results(run)
               else if parts == [] then [] else [Bare(Assistant, Intermediate, content)]) + Turn(b)
  {
    GroupReplayed(a, head, run, b);
    RunResults(run);
    ResultsAnswer(run);
  }

  lemma GroupReplayed(a: seq<Node>, head: seq<Node>, run: seq<Node>, b: seq<Node>)
    requires |head| <= 1 && (head != [] ==> head[0].AssistantNode?)
    requires head == [] ==> a == [] || a[|a| - 1].UserNode? || a[|a| - 1].OtherNode?
    requires run != [] && AllTools(run) && (b == [] || !b[0].ToolNode?)
    ensures Turn(a + head + run + b) ==
            Turn(a) + RunMessages(if head == [] then "" else head[0].text, run) + Turn(b)
  {
    var group := head + run;
    GroupTaken(head, run);
    GroupIn(a, group, b);
    FourParts(a, head, run, b);
  }

  lemma FourParts(a: seq<Node>, b: seq<Node>, c: seq<Node>, d: seq<Node>)
    ensures a + b + c + d == a + ((b + c) + d)
  {
  }

  lemma GroupIn(a: seq<Node>, group: seq<Node>, b: seq<Node>)
    requires group != [] && (group[0].ToolNode? ==> a == [] || a[|a| - 1].UserNode? || a[|a| - 1].OtherNode?)
    requires b == [] || !b[0].ToolNode?
    ensures Turn(a + (group + b)) == Turn(a) + Turn(group) + Turn(b)
  {
    TurnConcat(group, b);
    GroupCut(a, group + b);
    Assoc(Turn(a), Turn(group), Turn(b));
  }

  lemma {:induction false} AllRun(run: seq<Node>)
    requires AllTools(run)
    ensures ToolNodes(run) == |run|
  {
    if run != [] {
      AllRun(run[1..]);
    }
  }

  lemma GroupTaken(head: seq<Node>, run: seq<Node>)
    requires |head| <= 1 && (head != [] ==> head[0].AssistantNode?) && run != [] && AllTools(run)
    ensures Turn(head + run) == RunMessages(if head == [] then "" else head[0].text, run)
  {
    var group := head + run;
    if head == [] {
      assert group == run;
      AllRun(run[1..]);
    } else {
      assert group[1..] == run;
      AllRun(run);
    }
    assert Taken(group) == |group|;
    assert group[|group|..] == [] && group[..|group|] == group && group[1..|group|] == group[1..];
  }

  /** A tool run without a text in front of it may also follow a node that is never shown. */
  lemma {:induction false} GroupCut(a: seq<Node>, b: seq<Node>)
    requires b == [] || !b[0].ToolNode? || a == [] || a[|a| - 1].UserNode? || a[|a| - 1].OtherNode?
    ensures Turn(a + b) == Turn(a) + Turn(b)
    decreases |a|
  {
    if a == [] {
      assert a + b == b;
    } else if |a| == 1 && a[0].OtherNode? {
      assert (a + b)[1..] == b && a[1..] == [];
    } else if a[|a| - 1].OtherNode? {
      var front, last := a[..|a| - 1], [a[|a| - 1]];
      assert a == front + last && a + b == front + (last + b);
      TurnConcat(front, last + b);
      TurnConcat(front, last);
      GroupCut(last, b);
      Assoc(Turn(front), Turn(last), Turn(b));
    } else {
      TurnConcat(a, b);
    }
  }

  lemma RunCallsAre(run: seq<Node>)
    requires AllTools(run)
    ensures AllRecall(Results(run), Where(run, Usable)) && |Ids(run)| == |Results(run)|
    ensures forall i :: 0 <= i < |Ids(run)| ==> Ids(run)[i] == Results(run)[i].callId
    ensures |Notes(run)| == |Where(run, CutOff)|
    ensures forall i :: 0 <= i < |Notes(run)| ==> Tells(Notes(run)[i], Where(run, CutOff)[i])
  {
    RunResults(run);
    ResultsAnswer(run);
    RunNotes(run);
  }

  /** A note names the tool, its arguments and its result. */
  predicate Tells(text: string, n: Node) {
    CutOff(n) && Occurs(n.tool, text) && Occurs(n.args, text) && Occurs(n.result, text)
  }

  lemma NoteTells(n: Node)
    requires CutOff(n)
    ensures Tells(NoteOf(n), n)
  {
    var front := "[历史回放] 调用工具 ";
    var args := if n.args == "" then "" else "，参数(摘要): " + n.args;
    var result := if n.result == "" then "" else "\n[历史回放] 工具结果(摘要): " + n.result;
    var note := front + n.tool + args + result;
    assert note == NoteOf(n);
    assert note == front + n.tool + (args + result);
    OccursIn(front, n.tool, args + result);
    OccursAtEnd(front + n.tool, "，参数(摘要): ", n.args, args, result);
    OccursAtEnd(front + n.tool + args, "\n[历史回放] 工具结果(摘要): ", n.result, result, "");
    assert note + "" == note;
  }

  lemma OccursAtEnd(front: string, tag: string, part: string, whole: string, rest: string)
    requires whole == if part == "" then "" else tag + part
    ensures Occurs(part, front + whole + rest)
  {
    if part == "" {
      assert BeginsAt(part, front + whole + rest, 0);
    } else {
      assert front + whole + rest == (front + tag) + part + rest;
      OccursIn(front + tag, part, rest);
    }
  }

  lemma {:induction false} RunNotes(run: seq<Node>)
    requires AllTools(run)
    ensures |Notes(run)| == |Where(run, CutOff)|
    ensures forall i :: 0 <= i < |Notes(run)| ==> Tells(Notes(run)[i], Where(run, CutOff)[i])
  {
    if run != [] {
      RunNotes(run[1..]);
      if CutOff(run[0]) {
        NoteTells(run[0]);
      }
    }
  }

  // ---------- what the assistant said ----------

  /** Assistant texts and notes, in the stored order. */
  function Said(items: seq<Node>): seq<string> {
    if items == [] then []
    else
      (match items[0]
       case AssistantNode(text, _, _) =>
         if |items| > 1 && items[1].ToolNode? then (if text == "" then [] else [text])
         else if Blank(text) then [] else [text]
       case ToolNode(_, _, _, _, _, _) => if CutOff(items[0]) then [NoteOf(items[0])] else []
       case _ => []) + Said(items[1..])
  }

  /** The assistant messages that have a text, as their texts. */
  function Texts(ms: seq<Message>): seq<string> {
    if ms == [] then []
    else (if ms[0].role.Assistant? && ms[0].content.Text? then [ms[0].content.text] else []) + Texts(ms[1..])
  }

  function AsLines(texts: seq<string>): string {
    if texts == [] then "" else JoinLines(texts)
  }

  lemma {:induction false} TextsConcat(a: seq<Message>, b: seq<Message>)
    ensures Texts(a + b) == Texts(a) + Texts(b)
  {
    if a == [] {
      assert a + b == b;
    } else {
      assert (a + b)[1..] == a[1..] + b;
      TextsConcat(a[1..], b);
    }
  }

  lemma {:induction false} NoTexts(ms: seq<Message>)
    requires forall i :: 0 <= i < |ms| ==> ms[i].role.Tool?
    ensures Texts(ms) == []
  {
    if ms != [] {
      NoTexts(ms[1..]);
    }
  }

  lemma {:induction false} SaidRun(run: seq<Node>, rest: seq<Node>)
    requires AllTools(run)
    ensures Said(run + rest) == Notes(run) + Said(rest)
  {
    if run == [] {
      assert run + rest == rest;
    } else {
      assert (run + rest)[1..] == run[1..] + rest;
      SaidRun(run[1..], rest);
    }
  }

  lemma RunSays(base: string, run: seq<Node>)
    requires AllTools(run)
    ensures var parts := (if base == "" then [] else [base]) + Notes(run);
            Texts(RunMessages(base, run)) == if parts == [] then [] else [JoinLines(parts)]
  {
    var ms := RunMessages(base, run);
    ResultsAnswer(run);
    if ms != [] {
      assert ms == [ms[0]] + ms[1..];
      assert ms[1..] == if Ids(run) != [] then Results(run) else [];
      NoTexts(ms[1..]);
    }
  }

  /** The part, its texts, and what it makes of the nodes it takes. */
  lemma PartSays(items: seq<Node>) returns (parts: seq<string>)
    requires items != []
    ensures Said(items) == parts + Said(items[Taken(items)..])
    ensures Texts(Part(items)) == if parts == [] then [] else [JoinLines(parts)]
  {
    var n := Taken(items);
    if items[0].ToolNode? {
      CutWhole(items, n);
      SaidRun(items[..n], items[n..]);
      RunSays("", items[..n]);
      parts := Notes(items[..n]);
      assert [] + parts == parts;
    } else if items[0].AssistantNode? && n > 1 {
      SaidHeaded(items, n);
      RunSays(items[0].text, items[1..n]);
      parts := (if items[0].text == "" then [] else [items[0].text]) + Notes(items[1..n]);
    } else {
      parts := AloneSays(items);
    }
  }

  lemma SaidHeaded(items: seq<Node>, n: nat)
    requires 1 < n <= |items| && items[0].AssistantNode? && AllTools(items[1..n])
    ensures Said(items) ==
            (if items[0].text == "" then [] else [items[0].text]) + Notes(items[1..n]) + Said(items[n..])
  {
    CutRest(items, n);
    SaidFirst(items);
    SaidRun(items[1..n], items[n..]);
    Assoc(if items[0].text == "" then [] else [items[0].text], Notes(items[1..n]), Said(items[n..]));
  }

  lemma SaidFirst(items: seq<Node>)
    requires |items| > 1 && items[0].AssistantNode? && items[1].ToolNode?
    ensures Said(items) == (if items[0].text == "" then [] else [items[0].text]) + Said(items[1..])
  {
  }

  lemma CutRest(items: seq<Node>, n: nat)
    requires 1 < n <= |items|
    ensures items[1..] == items[1..n] + items[n..] && items[1] == items[1..n][0]
  {
  }

  lemma AloneSays(items: seq<Node>) returns (parts: seq<string>)
    requires items != [] && Taken(items) == 1 && !items[0].ToolNode?
    ensures Said(items) == parts + Said(items[1..])
    ensures Texts(Part(items)) == if parts == [] then [] else [JoinLines(parts)]
  {
    parts := if items[0].AssistantNode? && !Blank(items[0].text) then [items[0].text] else [];
    assert |items| > 1 && items[0].AssistantNode? ==> !items[1].ToolNode? by {
      assert |items| > 1 ==> items[1..][0] == items[1];
    }
    assert Part(items) != [] ==> Part(items) == [Part(items)[0]] && Part(items)[1..] == [];
  }

  lemma LinesConcat(a: seq<string>, b: seq<string>)
    ensures AsLines((if a == [] then [] else [JoinLines(a)]) + b) == AsLines(a + b)
  {
    if a == [] {
      assert [] + b == a + b;
    } else if b == [] {
      assert [JoinLines(a)] + b == [JoinLines(a)] && a + b == a;
    } else {
      JoinConcat(a, b);
      JoinConcat([JoinLines(a)], b);
    }
  }

  lemma LinesBehind(a: seq<string>, b: seq<string>, c: seq<string>)
    requires |a| <= 1 && AsLines(b) == AsLines(c) && (b == [] <==> c == [])
    ensures AsLines(a + b) == AsLines(a + c)
  {
    if a == [] {
      assert a + b == b && a + c == c;
    } else if b == [] {
      assert a + b == a && a + c == a;
    } else {
      JoinConcat(a, b);
      JoinConcat(a, c);
    }
  }

  /** Nothing the assistant said is lost, doubled or moved: its messages read one below the
      other are the stored texts and the notes one below the other. */
  lemma {:induction false} TurnSays(items: seq<Node>)
    ensures AsLines(Texts(Turn(items))) == AsLines(Said(items)) && (Texts(Turn(items)) == [] <==> Said(items) == [])
    decreases |items|
  {
    if items != [] {
      var n := Taken(items);
      var parts := PartSays(items);
      TurnSays(items[n..]);
      TextsConcat(Part(items), Turn(items[n..]));
      LinesBehind(Texts(Part(items)), Texts(Turn(items[n..])), Said(items[n..]));
      LinesConcat(parts, Said(items[n..]));
    }
  }

  lemma {:induction false} HistoryJoined(a: seq<seq<Node>>, b: seq<seq<Node>>)
    ensures History(a + b) == History(a) + History(b)
  {
    if a == [] {
      assert a + b == b;
    } else {
      FirstOf(a, b);
      HistoryJoined(a[1..], b);
      Assoc(Turn(Replayable(a[0])), History(a[1..]), History(b));
    }
  }

  lemma OneTurn(nodes: seq<Node>)
    ensures History([nodes]) == Turn(Where(nodes, Shown))
  {
    ReplayableIs(nodes);
    assert [nodes][1..] == [];
  }

  /** The turns of a conversation are replayed one behind the other, each by itself. */
  lemma HistoryConcat(a: seq<seq<Node>>, nodes: seq<Node>, b: seq<seq<Node>>)
    ensures History(a + [nodes] + b) == History(a) + Turn(Where(nodes, Shown)) + History(b)
  {
    HistoryJoined(a + [nodes], b);
    HistoryJoined(a, [nodes]);
    OneTurn(nodes);
  }

  /** A history that begins with this very prompt is taken as it is, any other behind it. */
  lemma AppliedIs(history: seq<Message>, prompt: string)
    ensures history != [] && history[0].role.System? && history[0].content == Text(prompt) ==>
            Applied(history, prompt) == history
    ensures history == [] || !history[0].role.System? || history[0].content != Text(prompt) ==>
            Applied(history, prompt) == [Bare(System, Plain, Text(prompt))] + history
  {
  }
}
