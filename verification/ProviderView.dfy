/** What is sent to a model: the copy of the transcript that `AgentContext.llm_messages`
    builds (core/agent_runtime/context.py).  It hides runtime records, drops orphaned
    tool results and invents an error result for every unanswered call. */
module ProviderView {
  import opened Text
  import opened Messages

  // ---------- what a provider accepts ----------

  /** The tool message at j answers the assistant message at i. */
  predicate Links(vs: seq<Message>, i: int, j: int) {
    0 <= i < j < |vs| && vs[i].role.Assistant? && vs[j].callId in vs[i].calls &&
    forall k :: i < k <= j ==> vs[k].role.Tool?
  }

  ghost predicate ToolsAnswer(vs: seq<Message>) {
    forall j :: 0 <= j < |vs| && vs[j].role.Tool? ==> exists i :: Links(vs, i, j)
  }

  ghost predicate CallAnswered(vs: seq<Message>, i: int, id: string) {
    exists j :: Links(vs, i, j) && vs[j].callId == id
  }

  ghost predicate CallsAnswered(vs: seq<Message>) {
    forall i, id :: 0 <= i < |vs| && vs[i].role.Assistant? && id in vs[i].calls ==> CallAnswered(vs, i, id)
  }

  /** No tool message without its carrier, no call without its result. */
  ghost predicate ProviderAccepts(vs: seq<Message>) {
    ToolsAnswer(vs) && CallsAnswered(vs)
  }

  // ---------- specification of the two passes ----------

  /** Pass one: `open` holds the ids still unanswered by the last assistant message. */
  function Kept(ms: seq<Message>, open: set<string>): seq<Message> {
    if ms == [] then []
    else
      var m, rest := ms[0], ms[1..];
      if m.runtime then Kept(rest, open)
      else if m.role.Tool? then
        if m.callId == "" || m.callId !in open then Kept(rest, open)
        else [m] + Kept(rest, open - {m.callId})
      else [m] + Kept(rest, Opened(m))
  }

  function Opened(m: Message): set<string> {
    if m.role.Assistant? then set id | id in m.calls else {}
  }

  const INTERRUPTED := Text("工具执行中断，无结果")

  function Placeholder(id: string): Message {
    Bare(Tool, Plain, INTERRUPTED).(callId := id)
  }

  /** One placeholder per declared, named and unanswered id, in declaration order. */
  function Missing(ids: seq<string>, answered: set<string>): seq<Message> {
    if ids == [] then []
    else (if ids[0] != "" && ids[0] !in answered then [Placeholder(ids[0])] else []) + Missing(ids[1..], answered)
  }

  lemma {:induction false} MissingMembers(ids: seq<string>, answered: set<string>)
    ensures forall m :: m in Missing(ids, answered) ==> m.role.Tool? && m.callId in ids && m.callId != ""
    ensures forall id :: id in ids && id != "" && id !in answered ==> Placeholder(id) in Missing(ids, answered)
  {
    if ids != [] {
      MissingMembers(ids[1..], answered);
      forall id | id in ids && id != "" && id !in answered ensures Placeholder(id) in Missing(ids, answered) {
        assert id == ids[0] || id in ids[1..];
      }
    }
  }

  function AnsweredIds(results: seq<Message>): set<string> {
    set i | 0 <= i < |results| && results[i].callId != "" :: results[i].callId
  }

  /** Pass two. */
  function Completed(ks: seq<Message>): seq<Message> {
    if ks == [] then []
    else if ks[0].role.Assistant? && ks[0].calls != [] then
      var n := ToolRun(ks[1..]);
      [ks[0]] + ks[1..1 + n] + Missing(ks[0].calls, AnsweredIds(ks[1..1 + n])) + Completed(ks[1 + n..])
    else [ks[0]] + Completed(ks[1..])
  }

  function View(ms: seq<Message>): seq<Message> {
    Completed(Kept(ms, {}))
  }

  // ---------- the code ----------

  method KeepPass(ms: seq<Message>) returns (kept: seq<Message>)
    ensures kept == Kept(ms, {})
  {
    kept := [];
    var pending: set<string> := {};
    var i := 0;
    assert ms[0..] == ms;
    while i < |ms|
      invariant 0 <= i <= |ms|
      invariant kept + Kept(ms[i..], pending) == Kept(ms, {})
    {
      var m := ms[i];
      KeepStep(ms, i, kept, pending);
      i := i + 1;
      if m.runtime {
        continue;
      }
      if m.role.Tool? {
        if m.callId == "" || m.callId !in pending {
          continue;
        }
        pending := pending - {m.callId};
      } else if m.role.Assistant? {
        pending := set id | id in m.calls;
      } else {
        pending := {};
      }
      kept := kept + [m];
    }
  }

  lemma KeepStep(ms: seq<Message>, i: nat, done: seq<Message>, open: set<string>)
    requires i < |ms|
    ensures var m, rest := ms[i], ms[i + 1..];
            done + Kept(ms[i..], open) ==
              if m.runtime then done + Kept(rest, open)
              else if m.role.Tool? then
                if m.callId == "" || m.callId !in open then done + Kept(rest, open)
                else done + [m] + Kept(rest, open - {m.callId})
              else done + [m] + Kept(rest, Opened(m))
  {
    assert ms[i..][1..] == ms[i + 1..];
  }

  method TakeResults(ks: seq<Message>, start: nat) returns (cursor: nat, answered: set<string>)
    requires start <= |ks|
    ensures cursor == start + ToolRun(ks[start..])
    ensures answered == AnsweredIds(ks[start..cursor])
  {
    cursor := start;
    answered := {};
    while cursor < |ks| && ks[cursor].role.Tool?
      invariant start <= cursor <= |ks|
      invariant answered == AnsweredIds(ks[start..cursor])
      invariant forall k :: start <= k < cursor ==> ks[k].role.Tool?
    {
      AnsweredMore(ks[start..cursor], ks[cursor]);
      assert ks[start..cursor] + [ks[cursor]] == ks[start..cursor + 1];
      if ks[cursor].callId != "" {
        answered := answered + {ks[cursor].callId};
      }
      cursor := cursor + 1;
    }
    RunIs(ks[start..], cursor - start);
  }

  method Synthesize(ids: seq<string>, answered: set<string>) returns (extra: seq<Message>)
    ensures extra == Missing(ids, answered)
  {
    extra := [];
    var j := 0;
    while j < |ids|
      invariant 0 <= j <= |ids|
      invariant extra + Missing(ids[j..], answered) == Missing(ids, answered)
    {
      assert ids[j..][1..] == ids[j + 1..];
      if ids[j] != "" && ids[j] !in answered {
        extra := extra + [Placeholder(ids[j])];
      }
      j := j + 1;
    }
  }

  /** A carrier, the results behind it and the invented ones are the view of that group. */
  lemma GroupStep(ks: seq<Message>, index: nat, cursor: nat, done: seq<Message>, extra: seq<Message>)
    requires index < |ks| && ks[index].role.Assistant? && ks[index].calls != []
    requires cursor == index + 1 + ToolRun(ks[index + 1..])
    requires extra == Missing(ks[index].calls, AnsweredIds(ks[index + 1..cursor]))
    ensures done + ks[index..cursor] + extra + Completed(ks[cursor..]) == done + Completed(ks[index..])
  {
    GroupAt(ks, index, cursor, extra);
    JoinFour(done, ks[index..cursor], extra, Completed(ks[cursor..]));
  }

  lemma GroupAt(ks: seq<Message>, index: nat, cursor: nat, extra: seq<Message>)
    requires index < |ks| && ks[index].role.Assistant? && ks[index].calls != []
    requires cursor == index + 1 + ToolRun(ks[index + 1..])
    requires extra == Missing(ks[index].calls, AnsweredIds(ks[index + 1..cursor]))
    ensures Completed(ks[index..]) == ks[index..cursor] + extra + Completed(ks[cursor..])
  {
    SplitBehind(ks, index, cursor);
    GroupOf(ks[index..], cursor - index - 1, ks[index..cursor], ks[cursor..], extra);
  }

  lemma GroupOf(ks: seq<Message>, n: nat, front: seq<Message>, rest: seq<Message>, extra: seq<Message>)
    requires ks != [] && ks[0].role.Assistant? && ks[0].calls != [] && n == ToolRun(ks[1..])
    requires front == [ks[0]] + ks[1..1 + n] && rest == ks[1 + n..]
    requires extra == Missing(ks[0].calls, AnsweredIds(ks[1..1 + n]))
    ensures Completed(ks) == front + extra + Completed(rest)
  {
    FirstGroup(ks, n, extra);
  }

  lemma FirstGroup(ks: seq<Message>, n: nat, extra: seq<Message>)
    requires ks != [] && ks[0].role.Assistant? && ks[0].calls != []
    requires n == ToolRun(ks[1..]) && extra == Missing(ks[0].calls, AnsweredIds(ks[1..1 + n]))
    ensures Completed(ks) == [ks[0]] + ks[1..1 + n] + extra + Completed(ks[1 + n..])
  {
  }

  lemma SplitBehind(ks: seq<Message>, index: nat, cursor: nat)
    requires index < cursor <= |ks|
    ensures var left, n := ks[index..], cursor - index - 1;
            && left[1..] == ks[index + 1..] && left[1..1 + n] == ks[index + 1..cursor] && left[1 + n..] == ks[cursor..]
            && [left[0]] + left[1..1 + n] == ks[index..cursor]
  {
  }

  lemma JoinFour(a: seq<Message>, b: seq<Message>, c: seq<Message>, d: seq<Message>)
    ensures a + (b + c + d) == a + b + c + d
  {
  }

  lemma SingleStep(ks: seq<Message>, index: nat, done: seq<Message>)
    requires index < |ks| && !(ks[index].role.Assistant? && ks[index].calls != [])
    ensures done + [ks[index]] + Completed(ks[index + 1..]) == done + Completed(ks[index..])
  {
    assert ks[index..][1..] == ks[index + 1..];
  }

  method CompletePass(ks: seq<Message>) returns (result: seq<Message>)
    ensures result == Completed(ks)
  {
    result := [];
    var index := 0;
    ghost var todo := Completed(ks);
    assert ks[0..] == ks && [] + todo == todo;
    while index < |ks|
      invariant 0 <= index <= |ks|
      invariant todo == Completed(ks[index..]) && result + todo == Completed(ks)
    {
      if ks[index].role.Assistant? && ks[index].calls != [] {
        var cursor, answered := TakeResults(ks, index + 1);
        var extra := Synthesize(ks[index].calls, answered);
        GroupStep(ks, index, cursor, result, extra);
        result := result + ks[index..cursor] + extra;
        index := cursor;
      } else {
        SingleStep(ks, index, result);
        result := result + [ks[index]];
        index := index + 1;
      }
      todo := Completed(ks[index..]);
    }
    assert todo == [];
  }

  method LlmMessages(ms: seq<Message>) returns (view: seq<Message>)
    ensures view == View(ms)
  {
    var kept := KeepPass(ms);
    view := CompletePass(kept);
  }

  lemma AnsweredMore(rs: seq<Message>, r: Message)
    ensures AnsweredIds(rs + [r]) == AnsweredIds(rs) + (if r.callId != "" then {r.callId} else {})
  {
    var more := rs + [r];
    forall id | id in AnsweredIds(rs) ensures id in AnsweredIds(more) {
      var i :| 0 <= i < |rs| && rs[i].callId != "" && rs[i].callId == id;
      assert more[i] == rs[i];
    }
    assert more[|rs|] == r;
  }

  // ---------- every view is acceptable ----------

  /** After pass one, leading tools answer ids in `open`, each at most once, and later
      tools answer the assistant message before them. */
  predicate Anchored(ks: seq<Message>, open: set<string>) {
    if ks == [] then true
    else if ks[0].role.Tool? then
      ks[0].callId != "" && ks[0].callId in open && Anchored(ks[1..], open - {ks[0].callId})
    else Anchored(ks[1..], Opened(ks[0]))
  }

  lemma {:induction false} KeptAnchored(ms: seq<Message>, open: set<string>)
    ensures Anchored(Kept(ms, open), open)
  {
    if ms != [] {
      var m, rest := ms[0], ms[1..];
      if m.runtime || (m.role.Tool? && (m.callId == "" || m.callId !in open)) {
        KeptAnchored(rest, open);
      } else {
        var next := if m.role.Tool? then open - {m.callId} else Opened(m);
        KeptAnchored(rest, next);
        assert Kept(ms, open)[1..] == Kept(rest, next);
      }
    }
  }

  lemma {:induction false} AnchoredRun(ks: seq<Message>, open: set<string>, n: nat)
    requires Anchored(ks, open) && n <= ToolRun(ks)
    ensures forall i :: 0 <= i < n ==> ks[i].callId in open
    ensures exists rest :: rest <= open && Anchored(ks[n..], rest)
    decreases n
  {
    if n == 0 {
      assert ks[0..] == ks;
      assert open <= open && Anchored(ks[0..], open);
    } else {
      AnchoredRun(ks[1..], open - {ks[0].callId}, n - 1);
      assert ks[1..][n - 1..] == ks[n..];
      forall i | 0 <= i < n ensures ks[i].callId in open {
        if i > 0 {
          assert ks[1..][i - 1] == ks[i];
        }
      }
      var rest :| rest <= open - {ks[0].callId} && Anchored(ks[1..][n - 1..], rest);
      assert rest <= open && Anchored(ks[n..], rest);
    }
  }

  lemma LinksShift(vs: seq<Message>, n: nat, i: int, j: int)
    requires n <= |vs| && Links(vs[n..], i, j)
    ensures Links(vs, n + i, n + j)
  {
    forall k | n + i < k <= n + j ensures vs[k].role.Tool? {
      assert vs[n..][k - n] == vs[k];
    }
    assert vs[n..][i] == vs[n + i] && vs[n..][j] == vs[n + j];
  }

  /** The first n messages are one group: an assistant message, its results, all of them. */
  predicate SoundGroup(vs: seq<Message>, n: nat) {
    1 <= n <= |vs| && !vs[0].role.Tool? &&
    (forall k :: 1 <= k < n ==> vs[k].role.Tool? && vs[0].role.Assistant? && vs[k].callId in vs[0].calls) &&
    (forall id :: vs[0].role.Assistant? && id in vs[0].calls ==> GroupHas(vs, n, id))
  }

  predicate GroupHas(vs: seq<Message>, n: nat, id: string) {
    exists k :: 1 <= k < n <= |vs| && vs[k].callId == id
  }

  lemma AcceptTools(vs: seq<Message>, n: nat)
    requires SoundGroup(vs, n) && ToolsAnswer(vs[n..])
    ensures ToolsAnswer(vs)
  {
    forall j | 0 <= j < |vs| && vs[j].role.Tool? ensures exists i :: Links(vs, i, j) {
      if j < n {
        assert Links(vs, 0, j);
      } else {
        assert vs[n..][j - n] == vs[j];
        var i :| Links(vs[n..], i, j - n);
        LinksShift(vs, n, i, j - n);
      }
    }
  }

  lemma AcceptCalls(vs: seq<Message>, n: nat)
    requires SoundGroup(vs, n) && CallsAnswered(vs[n..])
    ensures CallsAnswered(vs)
  {
    forall i, id | 0 <= i < |vs| && vs[i].role.Assistant? && id in vs[i].calls ensures CallAnswered(vs, i, id) {
      if i == 0 {
        assert GroupHas(vs, n, id);
        var k :| 1 <= k < n <= |vs| && vs[k].callId == id;
        assert Links(vs, 0, k);
      } else {
        assert vs[n..][i - n] == vs[i];
        assert CallAnswered(vs[n..], i - n, id);
        var j :| Links(vs[n..], i - n, j) && vs[n..][j].callId == id;
        LinksShift(vs, n, i - n, j);
      }
    }
  }

  ghost predicate NamedCalls(ms: seq<Message>) {
    forall i :: 0 <= i < |ms| && !ms[i].runtime && ms[i].role.Assistant? ==> "" !in ms[i].calls
  }

  /** The answers of a group, received and invented. */
  predicate AnswerList(m: Message, answers: seq<Message>) {
    (forall k :: 0 <= k < |answers| ==> answers[k].role.Tool? && answers[k].callId in m.calls) &&
    (forall id :: id in m.calls ==> exists k :: 0 <= k < |answers| && answers[k].callId == id)
  }

  lemma AnswersComplete(m: Message, results: seq<Message>)
    requires m.role.Assistant? && "" !in m.calls
    requires forall k :: 0 <= k < |results| ==> results[k].role.Tool? && results[k].callId in m.calls
    ensures AnswerList(m, results + Missing(m.calls, AnsweredIds(results)))
  {
    var extra := Missing(m.calls, AnsweredIds(results));
    var answers := results + extra;
    MissingMembers(m.calls, AnsweredIds(results));
    forall k | 0 <= k < |answers| ensures answers[k].role.Tool? && answers[k].callId in m.calls {
      if k >= |results| {
        assert answers[k] in extra;
      }
    }
    forall id | id in m.calls ensures exists k :: 0 <= k < |answers| && answers[k].callId == id {
      if id in AnsweredIds(results) {
        var k :| 0 <= k < |results| && results[k].callId != "" && results[k].callId == id;
        assert answers[k].callId == id;
      } else {
        assert Placeholder(id) in extra && Placeholder(id) in answers;
      }
    }
  }

  lemma GroupFromAnswers(m: Message, answers: seq<Message>, rest: seq<Message>)
    requires m.role.Assistant? && AnswerList(m, answers)
    ensures SoundGroup([m] + answers + rest, 1 + |answers|)
  {
    var vs := [m] + answers + rest;
    assert forall k :: 0 <= k < |answers| ==> vs[1 + k] == answers[k];
    forall id | id in m.calls ensures GroupHas(vs, 1 + |answers|, id) {
      var k :| 0 <= k < |answers| && answers[k].callId == id;
      assert vs[1 + k].callId == id;
    }
  }

  lemma RepairedGroup(m: Message, results: seq<Message>, rest: seq<Message>)
    requires m.role.Assistant? && "" !in m.calls
    requires forall k :: 0 <= k < |results| ==> results[k].role.Tool? && results[k].callId in m.calls
    ensures var extra := Missing(m.calls, AnsweredIds(results));
            SoundGroup([m] + results + extra + rest, 1 + |results| + |extra|)
  {
    var extra := Missing(m.calls, AnsweredIds(results));
    AnswersComplete(m, results);
    GroupFromAnswers(m, results + extra, rest);
    ThreeIntoTwo([m], results, extra);
  }

  lemma ThreeIntoTwo(a: seq<Message>, b: seq<Message>, c: seq<Message>)
    ensures a + (b + c) == a + b + c
  {
  }

  /** The group at the front of an anchored list, and what is behind it. */
  lemma FrontGroup(ks: seq<Message>, open: set<string>) returns (rest: set<string>)
    requires ks != [] && !ks[0].role.Tool? && Anchored(ks, open)
    ensures var n := ToolRun(ks[1..]);
            && (forall k :: 1 <= k <= n ==> ks[k].role.Tool? && ks[k].callId in Opened(ks[0]))
            && Anchored(ks[1 + n..], rest)
            && (1 + n < |ks| ==> !ks[1 + n].role.Tool?)
  {
    var n := ToolRun(ks[1..]);
    AnchoredRun(ks[1..], Opened(ks[0]), n);
    assert ks[1..][n..] == ks[1 + n..];
    rest :| rest <= Opened(ks[0]) && Anchored(ks[1..][n..], rest);
    forall k | 1 <= k <= n ensures ks[k].role.Tool? && ks[k].callId in Opened(ks[0]) {
      assert ks[1..][k - 1] == ks[k];
    }
    assert 1 + n < |ks| ==> ks[1..][n] == ks[1 + n];
  }

  lemma GroupSound(ks: seq<Message>, n: nat) returns (size: nat)
    requires ks != [] && !ks[0].role.Tool? && n == ToolRun(ks[1..]) && (ks[0].role.Assistant? ==> "" !in ks[0].calls)
    requires forall k :: 1 <= k <= n ==> ks[k].role.Tool? && ks[k].callId in Opened(ks[0])
    ensures SoundGroup(Completed(ks), size) && Completed(ks)[size..] == Completed(ks[1 + n..])
  {
    var results, tail := ks[1..1 + n], Completed(ks[1 + n..]);
    assert forall k :: 0 <= k < n ==> results[k] == ks[k + 1];
    if ks[0].role.Assistant? && ks[0].calls != [] {
      var extra := Missing(ks[0].calls, AnsweredIds(results));
      RepairedGroup(ks[0], results, tail);
      FirstGroup(ks, n, extra);
      size := 1 + n + |extra|;
      BehindThree([ks[0]], results, extra, tail);
    } else {
      if n > 0 {
        assert false;
      }
      size := 1;
      assert Completed(ks) == [ks[0]] + tail;
    }
  }

  lemma BehindThree(a: seq<Message>, b: seq<Message>, c: seq<Message>, d: seq<Message>)
    ensures (a + b + c + d)[|a| + |b| + |c|..] == d
  {
  }

  lemma {:induction false} CompletedAccepted(ks: seq<Message>, open: set<string>)
    requires Anchored(ks, open) && (ks != [] ==> !ks[0].role.Tool?)
    requires forall i :: 0 <= i < |ks| && ks[i].role.Assistant? ==> "" !in ks[i].calls
    ensures ProviderAccepts(Completed(ks))
    decreases |ks|
  {
    if ks != [] {
      var n := ToolRun(ks[1..]);
      var rest := FrontGroup(ks, open);
      CompletedAccepted(ks[1 + n..], rest);
      var size := GroupSound(ks, n);
      AcceptTools(Completed(ks), size);
      AcceptCalls(Completed(ks), size);
    }
  }

  lemma {:induction false} KeptMembers(ms: seq<Message>, open: set<string>)
    ensures forall m :: m in Kept(ms, open) ==> m in ms && !m.runtime
    ensures forall m :: m in ms && !m.runtime && !m.role.Tool? ==> m in Kept(ms, open)
  {
    if ms != [] {
      var m, rest := ms[0], ms[1..];
      if m.runtime || (m.role.Tool? && (m.callId == "" || m.callId !in open)) {
        KeptMembers(rest, open);
      } else {
        KeptMembers(rest, if m.role.Tool? then open - {m.callId} else Opened(m));
      }
    }
  }

  lemma {:induction false} CompletedMembers(ks: seq<Message>)
    ensures forall m :: m in ks ==> m in Completed(ks)
    ensures forall m :: m in Completed(ks) ==> m in ks || (m.role.Tool? && m.callId != "")
  {
    if ks != [] {
      if ks[0].role.Assistant? && ks[0].calls != [] {
        var n := ToolRun(ks[1..]);
        CompletedMembers(ks[1 + n..]);
        assert ks == [ks[0]] + ks[1..1 + n] + ks[1 + n..];
        MissingMembers(ks[0].calls, AnsweredIds(ks[1..1 + n]));
      } else {
        CompletedMembers(ks[1..]);
      }
    }
  }

  lemma {:induction false} KeptNamed(ms: seq<Message>, open: set<string>)
    ensures forall m :: m in Kept(ms, open) && m.role.Tool? ==> m.callId != ""
  {
    if ms != [] {
      var m, rest := ms[0], ms[1..];
      if m.runtime || (m.role.Tool? && (m.callId == "" || m.callId !in open)) {
        KeptNamed(rest, open);
      } else {
        KeptNamed(rest, if m.role.Tool? then open - {m.callId} else Opened(m));
      }
    }
  }

  /** For every transcript whatsoever, damaged or not, the model gets an acceptable
      list, exactly when no visible assistant message declares an empty call id. */
  lemma ViewAccepted(ms: seq<Message>)
    ensures ProviderAccepts(View(ms)) <==> NamedCalls(ms)
  {
    var ks := Kept(ms, {});
    KeptAnchored(ms, {});
    KeptMembers(ms, {});
    CompletedMembers(ks);
    if NamedCalls(ms) {
      forall i | 0 <= i < |ks| && ks[i].role.Assistant? ensures "" !in ks[i].calls {
        assert ks[i] in ks;
      }
      CompletedAccepted(ks, {});
    } else {
      var i :| 0 <= i < |ms| && !ms[i].runtime && ms[i].role.Assistant? && "" in ms[i].calls;
      var vs := View(ms);
      assert ms[i] in ms && ms[i] in vs;
      var p :| 0 <= p < |vs| && vs[p] == ms[i];
      KeptNamed(ms, {});
      if CallAnswered(vs, p, "") {
        assert false;
      }
    }
  }

  // ---------- on a sound transcript nothing is repaired ----------

  function Visible(ms: seq<Message>): seq<Message> {
    if ms == [] then []
    else if ms[0].runtime then Visible(ms[1..]) else [ms[0]] + Visible(ms[1..])
  }

  lemma {:induction false} VisibleConcat(a: seq<Message>, b: seq<Message>)
    ensures Visible(a + b) == Visible(a) + Visible(b)
  {
    if a == [] {
      assert a + b == b;
    } else {
      assert (a + b)[1..] == a[1..] + b;
      VisibleConcat(a[1..], b);
    }
  }

  lemma {:induction false} VisibleMembers(ms: seq<Message>)
    ensures forall m :: m in Visible(ms) <==> m in ms && !m.runtime
  {
    if ms != [] {
      assert ms == [ms[0]] + ms[1..];
      VisibleMembers(ms[1..]);
    }
  }

  ghost predicate DistinctCalls(ms: seq<Message>) {
    forall i :: 0 <= i < |ms| ==>
      forall p, q :: 0 <= p < q < |ms[i].calls| ==> ms[i].calls[p] != ms[i].calls[q]
  }

  lemma {:induction false} KeptResults(results: seq<Message>, ids: seq<string>, rest: seq<Message>, open: set<string>)
    requires Answers(ids, results) && "" !in ids
    requires forall p, q :: 0 <= p < q < |ids| ==> ids[p] != ids[q]
    requires forall i :: 0 <= i < |ids| ==> ids[i] in open
    ensures exists left :: Kept(results + rest, open) == results + Kept(rest, left)
    decreases |ids|
  {
    if ids == [] {
      assert results + rest == rest;
      assert Kept(results + rest, open) == results + Kept(rest, open);
    } else {
      var all, less := results + rest, results[1..] + rest;
      assert all[0] == results[0] && all[1..] == less;
      assert ids[0] in ids;
      KeptResults(results[1..], ids[1..], rest, open - {ids[0]});
      var left :| Kept(less, open - {ids[0]}) == results[1..] + Kept(rest, left);
      HeadBack(results, Kept(rest, left));
      assert Kept(all, open) == results + Kept(rest, left);
    }
  }

  lemma HeadBack(results: seq<Message>, rest: seq<Message>)
    requires results != []
    ensures [results[0]] + (results[1..] + rest) == results + rest
  {
  }

  lemma CutBatch(ms: seq<Message>, n: nat)
    requires 1 + n <= |ms|
    ensures ms[1..] == ms[1..1 + n] + ms[1 + n..] && ms == [ms[0]] + ms[1..1 + n] + ms[1 + n..]
  {
  }

  lemma {:induction false} KeptSound(ms: seq<Message>, open: set<string>)
    requires Paired(ms) && NamedCalls(ms) && DistinctCalls(ms)
    ensures Kept(ms, open) == Visible(ms)
    decreases |ms|
  {
    if ms != [] {
      if Carrier(ms[0]) {
        var n := |ms[0].calls|;
        var results, rest := ms[1..1 + n], ms[1 + n..];
        CutBatch(ms, n);
        KeptResults(results, ms[0].calls, rest, Opened(ms[0]));
        var left :| Kept(results + rest, Opened(ms[0])) == results + Kept(rest, left);
        KeptSound(rest, left);
        VisibleConcat(results, rest);
        AllVisible(results);
      } else {
        KeptSound(ms[1..], if ms[0].runtime then open else Opened(ms[0]));
      }
    }
  }

  lemma {:induction false} AllVisible(ms: seq<Message>)
    requires forall i :: 0 <= i < |ms| ==> !ms[i].runtime
    ensures Visible(ms) == ms
  {
    if ms != [] {
      AllVisible(ms[1..]);
    }
  }

  lemma {:induction false} VisiblePaired(ms: seq<Message>)
    requires Paired(ms)
    ensures Paired(Visible(ms))
    decreases |ms|
  {
    if ms != [] {
      if Carrier(ms[0]) {
        var n := |ms[0].calls|;
        var results, rest := ms[1..1 + n], ms[1 + n..];
        assert ms == ([ms[0]] + results) + rest;
        VisibleConcat([ms[0]] + results, rest);
        AllVisible([ms[0]] + results);
        VisiblePaired(rest);
        BatchPaired(ms[0], results);
        PairedConcat([ms[0]] + results, Visible(rest));
      } else {
        VisiblePaired(ms[1..]);
        if !ms[0].runtime {
          assert Visible(ms)[1..] == Visible(ms[1..]);
        }
      }
    }
  }

  lemma BehindSound(ks: seq<Message>, n: nat)
    requires n <= |ks| && NamedCalls(ks) && forall i :: 0 <= i < |ks| ==> !ks[i].runtime
    ensures NamedCalls(ks[n..]) && forall i :: 0 <= i < |ks[n..]| ==> !ks[n..][i].runtime
  {
  }

  lemma CompletedGroup(ks: seq<Message>, n: nat)
    requires n < |ks| && ks[0].role.Assistant? && ks[0].calls != [] && n == ToolRun(ks[1..])
    requires Missing(ks[0].calls, AnsweredIds(ks[1..1 + n])) == []
    requires Completed(ks[1 + n..]) == ks[1 + n..]
    ensures Completed(ks) == ks
  {
    var extra := Missing(ks[0].calls, AnsweredIds(ks[1..1 + n]));
    FirstGroup(ks, n, extra);
    WholeAgain(ks, n, extra);
  }

  lemma WholeAgain(ks: seq<Message>, n: nat, none: seq<Message>)
    requires n < |ks| && none == []
    ensures [ks[0]] + ks[1..1 + n] + none + ks[1 + n..] == ks
  {
  }

  lemma {:induction false} CompletedSound(ks: seq<Message>)
    requires Paired(ks) && NamedCalls(ks) && forall i :: 0 <= i < |ks| ==> !ks[i].runtime
    ensures Completed(ks) == ks
    decreases |ks|
  {
    if ks != [] {
      var n := if Carrier(ks[0]) then |ks[0].calls| else 0;
      BehindSound(ks, 1 + n);
      CompletedSound(ks[1 + n..]);
      if n > 0 {
        CarrierSound(ks, n);
      } else {
        SoloSound(ks);
      }
    }
  }

  lemma SoloSound(ks: seq<Message>)
    requires ks != [] && !(ks[0].role.Assistant? && ks[0].calls != []) && Completed(ks[1..]) == ks[1..]
    ensures Completed(ks) == ks
  {
  }

  lemma CarrierSound(ks: seq<Message>, n: nat)
    requires ks != [] && Paired(ks) && Carrier(ks[0]) && n == |ks[0].calls| && n > 0
    requires NamedCalls(ks) && forall i :: 0 <= i < |ks| ==> !ks[i].runtime
    requires Completed(ks[1 + n..]) == ks[1 + n..]
    ensures Completed(ks) == ks
  {
    RunOfAnswers(ks, n);
    MissingNone(ks[0].calls, AnsweredIds(ks[1..1 + n]), ks[1..1 + n]);
    CompletedGroup(ks, n);
  }

  lemma RunOfAnswers(ks: seq<Message>, n: nat)
    requires 1 + n <= |ks| && Answers(ks[0].calls, ks[1..1 + n]) && n == |ks[0].calls|
    requires Paired(ks[1 + n..]) && forall i :: 0 <= i < |ks| ==> !ks[i].runtime
    ensures ToolRun(ks[1..]) == n
  {
    forall i | 0 <= i < n ensures ks[1..][i].role.Tool? {
      assert ks[1..][i] == ks[1..1 + n][i];
    }
    RunIs(ks[1..], n);
  }

  lemma {:induction false} MissingNone(ids: seq<string>, answered: set<string>, results: seq<Message>)
    requires Answers(ids, results) && "" !in ids && AnsweredIds(results) <= answered
    ensures Missing(ids, answered) == []
    decreases |ids|
  {
    if ids != [] {
      assert ids[0] in ids;
      assert results[0].callId in AnsweredIds(results);
      forall id | id in AnsweredIds(results[1..]) ensures id in answered {
        var i :| 0 <= i < |results[1..]| && results[1..][i].callId != "" && results[1..][i].callId == id;
        assert results[1 + i].callId in AnsweredIds(results);
      }
      MissingNone(ids[1..], answered, results[1..]);
    }
  }

  /** A paired transcript with distinct, named calls is sent unchanged apart from its
      runtime records. */
  lemma ViewOfPaired(ms: seq<Message>)
    requires Paired(ms) && NamedCalls(ms) && DistinctCalls(ms)
    ensures View(ms) == Visible(ms)
  {
    KeptSound(ms, {});
    VisiblePaired(ms);
    KeptMembers(ms, {});
    var ks := Visible(ms);
    forall i | 0 <= i < |ks| ensures !ks[i].runtime && (ks[i].role.Assistant? ==> "" !in ks[i].calls) {
      assert ks[i] in ks;
    }
    CompletedSound(ks);
  }

  // ---------- what repairing leaves alone ----------

  predicate NoTool(m: Message) {
    !m.role.Tool?
  }

  lemma {:induction false} KeptOthers(ms: seq<Message>, open: set<string>)
    ensures Where(Kept(ms, open), NoTool) == Where(Visible(ms), NoTool)
    decreases |ms|
  {
    if ms != [] {
      var m, rest := ms[0], ms[1..];
      if m.role.Tool? {
        KeptOthers(rest, open);
        KeptOthers(rest, open - {m.callId});
      } else {
        KeptOthers(rest, Opened(m));
        KeptOthers(rest, open);
      }
    }
  }

  lemma {:induction false} CompletedOthers(ks: seq<Message>)
    ensures Where(Completed(ks), NoTool) == Where(ks, NoTool)
    decreases |ks|
  {
    if ks != [] {
      if ks[0].role.Assistant? && ks[0].calls != [] {
        var n := ToolRun(ks[1..]);
        var results, extra, rest := ks[1..1 + n], Missing(ks[0].calls, AnsweredIds(ks[1..1 + n])), ks[1 + n..];
        CompletedOthers(rest);
        MissingTools(ks[0].calls, AnsweredIds(results));
        ToolsGone(ks[0], results, extra, Completed(rest));
        assert ks == [ks[0]] + results + [] + rest;
        ToolsGone(ks[0], results, [], rest);
      } else {
        CompletedOthers(ks[1..]);
      }
    }
  }

  lemma MissingTools(ids: seq<string>, answered: set<string>)
    ensures forall i :: 0 <= i < |Missing(ids, answered)| ==> Missing(ids, answered)[i].role.Tool?
  {
    MissingMembers(ids, answered);
    forall i | 0 <= i < |Missing(ids, answered)| ensures Missing(ids, answered)[i].role.Tool? {
      assert Missing(ids, answered)[i] in Missing(ids, answered);
    }
  }

  lemma ToolsGone(m: Message, results: seq<Message>, extra: seq<Message>, rest: seq<Message>)
    requires forall i :: 0 <= i < |results| ==> results[i].role.Tool?
    requires forall i :: 0 <= i < |extra| ==> extra[i].role.Tool?
    ensures Where([m] + results + extra + rest, NoTool) == Where([m], NoTool) + Where(rest, NoTool)
  {
    WhereNone(results, NoTool);
    WhereNone(extra, NoTool);
    WhereConcat([m] + results + extra, rest, NoTool);
    WhereConcat([m] + results, extra, NoTool);
    WhereConcat([m], results, NoTool);
  }

  /** Every visible message that is no tool result is sent, unchanged and in its order. */
  lemma ViewKeepsOthers(ms: seq<Message>)
    ensures Where(View(ms), NoTool) == Where(Visible(ms), NoTool)
  {
    KeptOthers(ms, {});
    CompletedOthers(Kept(ms, {}));
  }

  /** The first visible result for a call of the last visible assistant message. */
  predicate FirstResult(ms: seq<Message>, open: set<string>, j: nat) {
    && j < |ms| && VisibleTool(ms[j]) && ms[j].callId != "" && ms[j].callId in open
    && forall k :: 0 <= k < j ==> ms[k].runtime || (ms[k].role.Tool? && ms[k].callId != ms[j].callId)
  }

  lemma {:induction false} FirstKept(ms: seq<Message>, open: set<string>, j: nat)
    requires FirstResult(ms, open, j)
    ensures ms[j] in Kept(ms, open)
    decreases j
  {
    if j > 0 {
      var m, rest := ms[0], ms[1..];
      assert forall k :: 0 <= k < j - 1 ==> rest[k] == ms[k + 1];
      if m.runtime || m.callId == "" || m.callId !in open {
        FirstKept(rest, open, j - 1);
      } else {
        FirstKept(rest, open - {m.callId}, j - 1);
      }
    }
  }

  lemma {:induction false} ResultKept(ms: seq<Message>, open: set<string>, i: nat, j: nat)
    requires i < j < |ms| && !ms[i].runtime && ms[i].role.Assistant?
    requires FirstResult(ms[i + 1..], Opened(ms[i]), j - i - 1)
    ensures ms[j] in Kept(ms, open)
    decreases i
  {
    var m, rest := ms[0], ms[1..];
    if i == 0 {
      FirstKept(rest, Opened(m), j - 1);
    } else {
      assert rest[i..] == ms[i + 1..];
      ResultKept(rest, open, i - 1, j - 1);
      ResultKept(rest, open - {m.callId}, i - 1, j - 1);
      ResultKept(rest, Opened(m), i - 1, j - 1);
    }
  }

  lemma {:induction false} KeptCompleted(ks: seq<Message>, m: Message)
    requires m in ks
    ensures m in Completed(ks)
    decreases |ks|
  {
    if ks[0].role.Assistant? && ks[0].calls != [] {
      var n := ToolRun(ks[1..]);
      assert ks == [ks[0]] + ks[1..1 + n] + ks[1 + n..];
      if m in ks[1 + n..] {
        KeptCompleted(ks[1 + n..], m);
      }
    } else {
      assert ks == [ks[0]] + ks[1..];
      if m in ks[1..] {
        KeptCompleted(ks[1..], m);
      }
    }
  }

  /** The first stored result of a call, with nothing but timeline records and results of
      other calls in between, is sent as it is. */
  lemma ViewKeepsResult(ms: seq<Message>, i: nat, j: nat)
    requires i < j < |ms| && !ms[i].runtime && ms[i].role.Assistant? && ms[j].callId in ms[i].calls
    requires VisibleTool(ms[j]) && ms[j].callId != ""
    requires forall k :: i < k < j ==> ms[k].runtime || (ms[k].role.Tool? && ms[k].callId != ms[j].callId)
    ensures ms[j] in View(ms)
  {
    var rest := ms[i + 1..];
    forall k | 0 <= k < j - i - 1 ensures rest[k] == ms[i + 1 + k] {}
    assert FirstResult(rest, Opened(ms[i]), j - i - 1);
    ResultKept(ms, {}, i, j);
    KeptCompleted(Kept(ms, {}), ms[j]);
  }

  lemma PlaceholderIs(id: string)
    ensures Placeholder(id) == Message(Tool, Plain, Text("工具执行中断，无结果"), [], id, "", false, false, "", 0)
  {
  }
}
