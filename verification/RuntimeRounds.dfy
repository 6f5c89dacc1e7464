/** What a Plan or Goal round leaves behind: `_retain_runtime_activity` and
    `_apply_goal_inject_cap` (gateway/dispatcher.py). */
module RuntimeRounds {
  import opened Text
  import opened Messages
  import opened ProviderView
  import opened MessageStorage

  datatype Round = Round(goal: bool, finalResponse: bool, goalId: string, goalRound: nat)

  predicate HasContent(c: Content) {
    c != Absent && c != Text("") && c != Blocks([])
  }

  // ---------- rollback ----------

  predicate Injects(round: Round) {
    round.finalResponse || round.goal
  }

  /** The record kept for one message of the round: prompts vanish, tool traffic and
      unpublished answers become timeline records, published answers stay visible. */
  function RetainedOne(m: Message, round: Round): seq<Message> {
    var hidden := m.(runtime := true, goalId := round.goalId, goalRound := round.goalRound);
    match m.role
    case User => []
    case System => []
    case Tool => [hidden]
    case Assistant =>
      if m.kind.ToolCalls? then [hidden]
      else if !HasContent(m.content) then []
      else if Injects(round) then [m.(goalAnswer := round.goal, goalId := round.goalId, goalRound := round.goalRound)]
      else [hidden]
  }

  function Retained(added: seq<Message>, round: Round): seq<Message> {
    if added == [] then [] else RetainedOne(added[0], round) + Retained(added[1..], round)
  }

  /** The slice of the round's list that the code takes for new messages. */
  function Added(before: seq<Message>, final: seq<Message>): seq<Message> {
    if |final| <= |before| then [] else final[|before|..]
  }

  // ---------- the cap on published goal answers ----------

  predicate GoalAnswer(m: Message, goalId: string) {
    m.goalId == goalId && !m.runtime && m.role.Assistant? && HasContent(m.content) && m.goalAnswer
  }

  function AnswersFrom(ms: seq<Message>, goalId: string, i: nat): nat
    requires i <= |ms|
    decreases |ms| - i
  {
    if i == |ms| then 0 else (if GoalAnswer(ms[i], goalId) then 1 else 0) + AnswersFrom(ms, goalId, i + 1)
  }

  function Archived(m: Message): Message {
    m.(content := Text("[Goal " + m.goalId + " 第" + Digits(m.goalRound) + "轮终答已归档，详见目标页]"))
  }

  /** Only the `keep` latest answers of the goal keep their text. */
  function CapAt(ms: seq<Message>, goalId: string, keep: nat, i: nat): Message
    requires i < |ms|
  {
    if GoalAnswer(ms[i], goalId) && AnswersFrom(ms, goalId, i) > keep then Archived(ms[i]) else ms[i]
  }

  /** A cap of zero and an empty goal id switch the rule off. */
  function Cap(ms: seq<Message>, goalId: string, keep: nat): (r: seq<Message>)
    ensures |r| == |ms|
  {
    if keep == 0 || goalId == "" then ms
    else seq(|ms|, i requires 0 <= i < |ms| => CapAt(ms, goalId, keep, i))
  }

  function AfterRound(before: seq<Message>, final: seq<Message>, round: Round, keep: nat): seq<Message> {
    if Added(before, final) == [] then before
    else Cap(before + Retained(Added(before, final), round), round.goalId, keep)
  }

  // ---------- the code ----------

  function IndicesFrom(ms: seq<Message>, goalId: string, i: nat): (r: seq<nat>)
    requires i <= |ms|
    ensures |r| == AnswersFrom(ms, goalId, i)
    decreases |ms| - i
  {
    if i == |ms| then []
    else (if GoalAnswer(ms[i], goalId) then [i] else []) + IndicesFrom(ms, goalId, i + 1)
  }

  lemma {:induction false} IndexRank(ms: seq<Message>, goalId: string, i: nat, k: nat)
    requires i <= |ms| && k < |IndicesFrom(ms, goalId, i)|
    ensures i <= IndicesFrom(ms, goalId, i)[k] < |ms| && GoalAnswer(ms[IndicesFrom(ms, goalId, i)[k]], goalId)
    ensures AnswersFrom(ms, goalId, IndicesFrom(ms, goalId, i)[k]) == |IndicesFrom(ms, goalId, i)| - k
    decreases |ms| - i
  {
    if GoalAnswer(ms[i], goalId) {
      if k > 0 {
        IndexRank(ms, goalId, i + 1, k - 1);
      }
    } else {
      IndexRank(ms, goalId, i + 1, k);
    }
  }

  lemma {:induction false} IndexAll(ms: seq<Message>, goalId: string, i: nat, j: nat)
    requires i <= j < |ms| && GoalAnswer(ms[j], goalId)
    ensures j in IndicesFrom(ms, goalId, i)
    decreases |ms| - i
  {
    if i < j {
      IndexAll(ms, goalId, i + 1, j);
    }
  }

  lemma NextIndex(ms: seq<Message>, goalId: string, rounds: seq<nat>, i: nat)
    requires i < |ms|
    ensures rounds + IndicesFrom(ms, goalId, i) ==
            (if GoalAnswer(ms[i], goalId) then rounds + [i] else rounds) + IndicesFrom(ms, goalId, i + 1)
  {
    var rest := IndicesFrom(ms, goalId, i + 1);
    FirstIndex(ms, goalId, i);
    Assoc(rounds, if GoalAnswer(ms[i], goalId) then [i] else [], rest);
    assert rounds + [] == rounds;
  }

  lemma FirstIndex(ms: seq<Message>, goalId: string, i: nat)
    requires i < |ms|
    ensures IndicesFrom(ms, goalId, i) ==
            (if GoalAnswer(ms[i], goalId) then [i] else []) + IndicesFrom(ms, goalId, i + 1)
  {
  }

  method CollectRounds(ms: seq<Message>, goalId: string) returns (rounds: seq<nat>)
    ensures rounds == IndicesFrom(ms, goalId, 0)
  {
    rounds := [];
    var i := 0;
    while i < |ms|
      invariant 0 <= i <= |ms|
      invariant rounds + IndicesFrom(ms, goalId, i) == IndicesFrom(ms, goalId, 0)
    {
      NextIndex(ms, goalId, rounds, i);
      if GoalAnswer(ms[i], goalId) {
        rounds := rounds + [i];
      }
      i := i + 1;
    }
  }

  method ArchiveAll(store: MessageStore, at: seq<nat>)
    requires forall k :: 0 <= k < |at| ==> at[k] < |store.messages|
    requires forall p, q :: 0 <= p < q < |at| ==> at[p] != at[q]
    modifies store`messages
    ensures |store.messages| == |old(store.messages)|
    ensures forall j :: 0 <= j < |store.messages| ==>
      store.messages[j] == if j in at then Archived(old(store.messages)[j]) else old(store.messages)[j]
  {
    var k := 0;
    while k < |at|
      invariant 0 <= k <= |at|
      invariant |store.messages| == |old(store.messages)|
      invariant forall j :: 0 <= j < |store.messages| ==>
        store.messages[j] == if j in at[..k] then Archived(old(store.messages)[j]) else old(store.messages)[j]
    {
      assert at[..k + 1] == at[..k] + [at[k]];
      store.messages := store.messages[at[k] := Archived(store.messages[at[k]])];
      k := k + 1;
    }
    assert at[..k] == at;
  }

  method ApplyGoalInjectCap(store: MessageStore, goalId: string, keep: nat)
    modifies store`messages
    ensures store.messages == Cap(old(store.messages), goalId, keep)
  {
    if keep == 0 || goalId == "" {
      return;
    }
    ghost var was := store.messages;
    var rounds := CollectRounds(store.messages, goalId);
    var older := if |rounds| > keep then |rounds| - keep else 0;
    forall p, q | 0 <= p < q < |rounds| ensures rounds[p] != rounds[q] {
      IndexRank(was, goalId, 0, p);
      IndexRank(was, goalId, 0, q);
    }
    forall k | 0 <= k < |rounds| ensures rounds[k] < |was| {
      IndexRank(was, goalId, 0, k);
    }
    ArchiveAll(store, rounds[..older]);
    forall j | 0 <= j < |was| ensures store.messages[j] == CapAt(was, goalId, keep, j) {
      CapMeaning(was, goalId, keep, j, older);
    }
  }

  lemma CapMeaning(ms: seq<Message>, goalId: string, keep: nat, j: nat, k: nat)
    requires j < |ms|
    requires var all := IndicesFrom(ms, goalId, 0);
             k <= |all| && (if |all| > keep then k == |all| - keep else k == 0)
    ensures j in IndicesFrom(ms, goalId, 0)[..k] <==> GoalAnswer(ms[j], goalId) && AnswersFrom(ms, goalId, j) > keep
  {
    var all := IndicesFrom(ms, goalId, 0);
    forall p | 0 <= p < |all| ensures all[p] < |ms| && GoalAnswer(ms[all[p]], goalId) {
      IndexRank(ms, goalId, 0, p);
    }
    if GoalAnswer(ms[j], goalId) {
      IndexAll(ms, goalId, 0, j);
      var q :| 0 <= q < |all| && all[q] == j;
      IndexRank(ms, goalId, 0, q);
      if q < k {
        assert all[..k][q] == j;
      } else if j in all[..k] {
        var p :| 0 <= p < k && all[..k][p] == j;
        IndexRank(ms, goalId, 0, p);
      }
    }
  }

  lemma RetainedFrom(added: seq<Message>, i: nat, round: Round)
    requires i < |added|
    ensures Retained(added[i..], round) == RetainedOne(added[i], round) + Retained(added[i + 1..], round)
  {
    assert added[i..][1..] == added[i + 1..];
  }

  method RetainAll(added: seq<Message>, round: Round) returns (retained: seq<Message>)
    ensures retained == Retained(added, round)
  {
    retained := [];
    var i := 0;
    while i < |added|
      invariant 0 <= i <= |added|
      invariant retained + Retained(added[i..], round) == Retained(added, round)
    {
      RetainedFrom(added, i, round);
      Assoc(retained, RetainedOne(added[i], round), Retained(added[i + 1..], round));
      retained := retained + RetainedOne(added[i], round);
      i := i + 1;
    }
    assert retained + [] == retained;
  }

  method RetainRuntimeActivity(store: MessageStore, before: seq<Message>, round: Round, keep: nat)
    modifies store`messages
    ensures store.messages == AfterRound(before, old(store.messages), round, keep)
  {
    var added := Added(before, store.messages);
    store.messages := before;
    if added != [] {
      var retained := RetainAll(added, round);
      store.messages := store.messages + retained;
      ApplyGoalInjectCap(store, round.goalId, keep);
    }
  }

  // ---------- what a round guarantees ----------

  /** Only tool-call messages declare calls. */
  predicate Shaped(ms: seq<Message>) {
    forall i :: 0 <= i < |ms| && ms[i].calls != [] ==> ms[i].role.Assistant? && ms[i].kind.ToolCalls?
  }

  /** A published answer: visible assistant text that neither declares nor answers a call. */
  predicate PlainAnswer(m: Message) {
    !m.runtime && m.role.Assistant? && !m.kind.ToolCalls? && m.calls == [] && HasContent(m.content)
  }

  predicate UserSummaries(ms: seq<Message>) {
    forall i :: 0 <= i < |ms| && Summary(ms[i]) ==> ms[i].role.User?
  }

  lemma {:induction false} RetainedParts(added: seq<Message>, round: Round)
    requires Shaped(added)
    ensures forall m :: m in Retained(added, round) ==> !m.role.System? && (m.runtime || PlainAnswer(m))
    ensures UserSummaries(added) ==> forall m :: m in Retained(added, round) ==> !Summary(m)
  {
    if added != [] {
      RetainedParts(added[1..], round);
    }
  }

  lemma {:induction false} RetainedConcat(a: seq<Message>, b: seq<Message>, round: Round)
    ensures Retained(a + b, round) == Retained(a, round) + Retained(b, round)
  {
    if a == [] {
      assert a + b == b;
    } else {
      FirstOf(a, b);
      RetainedConcat(a[1..], b, round);
      Assoc(RetainedOne(a[0], round), Retained(a[1..], round), Retained(b, round));
    }
  }

  /** What a round leaves of each message, and with `RetainedConcat` of all of them in
      order.  Prompts go; tool traffic stays in the timeline, marked with goal and round, and
      so do answers that are not published; published answers stay visible; empty ones go. */
  lemma RetainedIs(m: Message, round: Round)
    ensures m.role.User? || m.role.System? ==> Retained([m], round) == []
    ensures m.role.Tool? || (m.role.Assistant? && m.kind.ToolCalls?) ==>
      Retained([m], round) == [m.(runtime := true, goalId := round.goalId, goalRound := round.goalRound)]
    ensures m.role.Assistant? && !m.kind.ToolCalls? ==>
      Retained([m], round) ==
        if m.content in {Absent, Text(""), Blocks([])} then []
        else if round.finalResponse || round.goal then
          [m.(goalAnswer := round.goal, goalId := round.goalId, goalRound := round.goalRound)]
        else [m.(runtime := true, goalId := round.goalId, goalRound := round.goalRound)]
  {
    assert [m][1..] == [];
  }

  /** The stub of an archived answer names goal and round and nothing of the answer. */
  lemma ArchivedNames(m: Message, other: Message)
    ensures var r := Archived(m);
            && r == m.(content := r.content) && r.content.Text?
            && Occurs(m.goalId, r.content.text) && Occurs(Digits(m.goalRound), r.content.text)
            && (other.goalId == m.goalId && other.goalRound == m.goalRound ==> Archived(other).content == r.content)
  {
    var text := Archived(m).content.text;
    var id, round := m.goalId, Digits(m.goalRound);
    assert text == "[Goal " + id + (" 第" + round + "轮终答已归档，详见目标页]");
    OccursIn("[Goal ", id, " 第" + round + "轮终答已归档，详见目标页]");
    assert text == ("[Goal " + id + " 第") + round + "轮终答已归档，详见目标页]";
    OccursIn("[Goal " + id + " 第", round, "轮终答已归档，详见目标页]");
  }

  // ---------- what the model sees afterwards ----------

  /** The answers of a round that are put into the context. */
  function Published(added: seq<Message>, round: Round): seq<Message> {
    if added == [] then []
    else
      var m := added[0];
      (if Injects(round) && !m.runtime && m.role.Assistant? && !m.kind.ToolCalls? && HasContent(m.content)
       then [m.(goalAnswer := round.goal, goalId := round.goalId, goalRound := round.goalRound)]
       else []) + Published(added[1..], round)
  }

  lemma {:induction false} PublishedVisible(added: seq<Message>, round: Round)
    ensures Visible(Retained(added, round)) == Published(added, round)
  {
    if added != [] {
      PublishedVisible(added[1..], round);
      VisibleConcat(RetainedOne(added[0], round), Retained(added[1..], round));
      VisibleOne(RetainedOne(added[0], round));
    }
  }

  lemma VisibleOne(ms: seq<Message>)
    requires |ms| <= 1
    ensures Visible(ms) == if ms == [] || ms[0].runtime then [] else ms
  {
    assert ms != [] ==> ms == [ms[0]] && ms[1..] == [];
  }

  lemma {:induction false} PublishedPlain(added: seq<Message>, round: Round)
    requires Shaped(added)
    ensures forall m :: m in Published(added, round) ==> PlainAnswer(m)
  {
    if added != [] {
      PublishedPlain(added[1..], round);
    }
  }

  lemma {:induction false} AnswersBehind(ms: seq<Message>, goalId: string, i: nat)
    requires i < |ms|
    ensures AnswersFrom(ms, goalId, i + 1) == AnswersFrom(ms[1..], goalId, i)
    decreases |ms| - i
  {
    if i + 1 < |ms| {
      AnswersBehind(ms, goalId, i + 1);
    }
  }

  /** What the cap does to a message depends on the messages behind it alone. */
  lemma CapSplit(ms: seq<Message>, goalId: string, keep: nat)
    requires ms != [] && keep > 0 && goalId != ""
    ensures Cap(ms, goalId, keep) == [CapAt(ms, goalId, keep, 0)] + Cap(ms[1..], goalId, keep)
  {
    forall i | 0 <= i < |ms[1..]|
      ensures CapAt(ms, goalId, keep, i + 1) == CapAt(ms[1..], goalId, keep, i)
    {
      AnswersBehind(ms, goalId, i + 1);
    }
  }

  lemma {:induction false} VisibleAnswers(ms: seq<Message>, goalId: string)
    ensures AnswersFrom(Visible(ms), goalId, 0) == AnswersFrom(ms, goalId, 0)
  {
    if ms != [] {
      VisibleAnswers(ms[1..], goalId);
      AnswersBehind(ms, goalId, 0);
      if !ms[0].runtime {
        AnswersBehind(Visible(ms), goalId, 0);
      }
    }
  }

  /** Hiding runtime records and capping commute. */
  lemma {:induction false} VisibleCap(ms: seq<Message>, goalId: string, keep: nat)
    ensures Visible(Cap(ms, goalId, keep)) == Cap(Visible(ms), goalId, keep)
  {
    if ms != [] && keep > 0 && goalId != "" {
      VisibleCap(ms[1..], goalId, keep);
      CapSplit(ms, goalId, keep);
      VisibleConcat([CapAt(ms, goalId, keep, 0)], Cap(ms[1..], goalId, keep));
      VisibleOne([CapAt(ms, goalId, keep, 0)]);
      if !ms[0].runtime {
        CapSplit(Visible(ms), goalId, keep);
        VisibleAnswers(ms, goalId);
        assert Visible(ms)[1..] == Visible(ms[1..]);
      }
    }
  }

  /** Whatever happened to the list during the round, the model afterwards sees the old
      transcript and the published answers behind it, under the cap. */
  lemma RoundVisible(before: seq<Message>, final: seq<Message>, round: Round, keep: nat)
    requires Shaped(final)
    ensures var answers := Published(Added(before, final), round);
            && (forall m :: m in answers ==> PlainAnswer(m))
            && Visible(AfterRound(before, final, round, keep)) ==
                 if Added(before, final) == [] then Visible(before)
                 else Cap(Visible(before) + answers, round.goalId, keep)
  {
    var added := Added(before, final);
    PublishedPlain(added, round);
    PublishedVisible(added, round);
    VisibleConcat(before, Retained(added, round));
    VisibleCap(before + Retained(added, round), round.goalId, keep);
  }

  /** A plan step that is not the last shows the model nothing; the cap alone may rewrite
      what it saw before. */
  lemma UnpublishedRound(before: seq<Message>, final: seq<Message>, round: Round, keep: nat)
    requires !Injects(round)
    ensures Visible(AfterRound(before, final, round, keep)) ==
            if Added(before, final) == [] then Visible(before) else Cap(Visible(before), round.goalId, keep)
  {
    var added := Added(before, final);
    NonePublished(added, round);
    PublishedVisible(added, round);
    VisibleConcat(before, Retained(added, round));
    VisibleCap(before + Retained(added, round), round.goalId, keep);
    assert Visible(before) + [] == Visible(before);
  }

  lemma {:induction false} NonePublished(added: seq<Message>, round: Round)
    requires !Injects(round)
    ensures Published(added, round) == []
  {
    if added != [] {
      NonePublished(added[1..], round);
    }
  }

  /** All but the latest `keep` answers of the goal are archived already. */
  predicate Trimmed(ms: seq<Message>, goalId: string, keep: nat) {
    keep == 0 || goalId == "" ||
    forall i :: 0 <= i < |ms| && GoalAnswer(ms[i], goalId) && AnswersFrom(ms, goalId, i) > keep ==>
      ms[i] == Archived(ms[i])
  }

  lemma CapFixedIff(ms: seq<Message>, goalId: string, keep: nat)
    ensures Cap(ms, goalId, keep) == ms <==> Trimmed(ms, goalId, keep)
  {
    if keep > 0 && goalId != "" {
      assert forall i :: 0 <= i < |ms| ==> Cap(ms, goalId, keep)[i] == CapAt(ms, goalId, keep, i);
      if Trimmed(ms, goalId, keep) {
        assert forall i :: 0 <= i < |ms| ==> CapAt(ms, goalId, keep, i) == ms[i];
      }
    }
  }

  /** The old transcript itself is left in front of the answers exactly when the cap finds
      nothing to archive. */
  lemma RoundPlainIff(before: seq<Message>, final: seq<Message>, round: Round, keep: nat)
    requires Shaped(final)
    ensures var answers := Published(Added(before, final), round);
            Visible(AfterRound(before, final, round, keep)) == Visible(before) + answers <==>
            Added(before, final) == [] || Trimmed(Visible(before) + answers, round.goalId, keep)
  {
    RoundVisible(before, final, round, keep);
    CapFixedIff(Visible(before) + Published(Added(before, final), round), round.goalId, keep);
  }

  /** A second answer under a cap of one rewrites the first, which the model had seen. */
  lemma RoundRewrites(system: Message, first: Message, second: Message)
    requires SystemHead(system) && PlainAnswer(first) && PlainAnswer(second) && GoalAnswer(first, "g")
    requires first != Archived(first)
    ensures var before := [system, first];
            !(Visible(before) <= Visible(AfterRound(before, before + [second], Round(true, false, "g", 2), 1)))
  {
    var before, round := [system, first], Round(true, false, "g", 2);
    var answer := second.(goalAnswer := true, goalId := "g", goalRound := 2);
    assert Added(before, before + [second]) == [second] && [second][1..] == [];
    assert Retained([second], round) == [answer];
    var list := before + [answer];
    assert AfterRound(before, before + [second], round, 1) == Cap(list, "g", 1);
    assert HasContent(second.content) && GoalAnswer(answer, "g");
    assert AnswersFrom(list, "g", 3) == 0;
    assert AnswersFrom(list, "g", 2) == 1;
    assert AnswersFrom(list, "g", 1) == 2;
    var after := Cap(list, "g", 1);
    assert after[0] == system && after[1] == Archived(first) && after[2] == answer;
    assert !after[0].runtime && !after[1].runtime;
    assert after == [after[0]] + ([after[1]] + after[2..]);
    VisibleConcat([after[0]], [after[1]] + after[2..]);
    VisibleConcat([after[1]], after[2..]);
    VisibleOne([after[0]]);
    VisibleOne([after[1]]);
    assert Visible(after)[1] == Archived(first);
    AllVisible(before);
  }

  lemma CapShape(ms: seq<Message>, goalId: string, keep: nat)
    ensures SameShapes(ms, Cap(ms, goalId, keep))
  {
    forall i | 0 <= i < |ms| ensures SameShape(ms[i], Cap(ms, goalId, keep)[i]) {
      assert keep > 0 && goalId != "" ==> Cap(ms, goalId, keep)[i] == CapAt(ms, goalId, keep, i);
    }
  }

  /** Messages that are no answer of this goal are untouched. */
  lemma CapOthers(ms: seq<Message>, goalId: string, keep: nat, i: nat)
    requires i < |ms| && !GoalAnswer(ms[i], goalId)
    ensures Cap(ms, goalId, keep)[i] == ms[i]
  {
    assert keep > 0 && goalId != "" ==> Cap(ms, goalId, keep)[i] == CapAt(ms, goalId, keep, i);
  }

  /** The latest `keep` answers, and no others, are the ones left alone. */
  lemma CapKeepsLatest(ms: seq<Message>, goalId: string, keep: nat, i: nat)
    requires keep > 0 && goalId != "" && i < |ms| && GoalAnswer(ms[i], goalId)
    ensures AnswersFrom(ms, goalId, i) <= keep ==> Cap(ms, goalId, keep)[i] == ms[i]
    ensures AnswersFrom(ms, goalId, i) > keep ==> Cap(ms, goalId, keep)[i] == Archived(ms[i])
  {
    assert Cap(ms, goalId, keep)[i] == CapAt(ms, goalId, keep, i);
  }

  // ---------- how many answers keep their text ----------

  function FullCount(ms: seq<Message>, goalId: string): nat {
    if ms == [] then 0
    else (if GoalAnswer(ms[0], goalId) && ms[0] != Archived(ms[0]) then 1 else 0) + FullCount(ms[1..], goalId)
  }

  lemma {:induction false} FullConcat(a: seq<Message>, b: seq<Message>, goalId: string)
    ensures FullCount(a + b, goalId) == FullCount(a, goalId) + FullCount(b, goalId)
  {
    if a == [] {
      assert a + b == b;
    } else {
      assert (a + b)[1..] == a[1..] + b;
      FullConcat(a[1..], b, goalId);
    }
  }

  lemma {:induction false} CapBound(ms: seq<Message>, goalId: string, keep: nat)
    requires keep > 0 && goalId != ""
    ensures FullCount(Cap(ms, goalId, keep), goalId) <= keep
    ensures FullCount(Cap(ms, goalId, keep), goalId) <= AnswersFrom(ms, goalId, 0)
  {
    if ms != [] {
      CapBound(ms[1..], goalId, keep);
      CapSplit(ms, goalId, keep);
      AnswersBehind(ms, goalId, 0);
    }
  }

  lemma {:induction false} CapOtherGoal(ms: seq<Message>, goalId: string, keep: nat, other: string)
    requires other != goalId
    ensures FullCount(Cap(ms, goalId, keep), other) == FullCount(ms, other)
  {
    if ms != [] && keep > 0 && goalId != "" {
      CapOtherGoal(ms[1..], goalId, keep, other);
      CapSplit(ms, goalId, keep);
    }
  }

  /** At most `keep` answers of any goal carry their text. */
  ghost predicate Bounded(ms: seq<Message>, keep: nat) {
    forall g :: g != "" ==> FullCount(ms, g) <= keep
  }

  lemma {:induction false} RetainedOther(added: seq<Message>, round: Round, other: string)
    requires other != round.goalId
    ensures FullCount(Retained(added, round), other) == 0
  {
    if added != [] {
      RetainedOther(added[1..], round, other);
      var one := RetainedOne(added[0], round);
      assert one != [] ==> one[1..] == [];
      FullConcat(one, Retained(added[1..], round), other);
    }
  }

  /** A round keeps the bound for every goal, its own and all others, even one that adds
      nothing and is not capped. */
  lemma RoundBounded(before: seq<Message>, final: seq<Message>, round: Round, keep: nat)
    requires keep > 0 && Bounded(before, keep)
    ensures Bounded(AfterRound(before, final, round, keep), keep)
  {
    var added := Added(before, final);
    if added != [] {
      var list := before + Retained(added, round);
      forall g | g != "" ensures FullCount(AfterRound(before, final, round, keep), g) <= keep {
        if g == round.goalId {
          CapBound(list, g, keep);
        } else {
          RetainedOther(added, round, g);
          FullConcat(before, Retained(added, round), g);
          CapOtherGoal(list, round.goalId, keep, g);
        }
      }
    }
  }

  // ---------- the transcript invariant ----------

  lemma RetainedSolo(added: seq<Message>, round: Round)
    requires Shaped(added) && UserSummaries(added)
    ensures var kept := Retained(added, round);
            Paired(kept) &&
            forall i :: 0 <= i < |kept| ==>
              Solo(kept[i]) && !Carrier(kept[i]) && !kept[i].role.System? && !Summary(kept[i])
  {
    var kept := Retained(added, round);
    RetainedParts(added, round);
    forall i | 0 <= i < |kept|
      ensures Solo(kept[i]) && !Carrier(kept[i]) && !kept[i].role.System? && !Summary(kept[i])
    {
      assert kept[i] in kept;
    }
    SolosPaired(kept);
  }

  lemma SolosArranged(kept: seq<Message>)
    requires forall i :: 0 <= i < |kept| ==>
               Solo(kept[i]) && !Carrier(kept[i]) && !kept[i].role.System? && !Summary(kept[i])
    ensures Arranged(kept)
  {
    if kept != [] {
      SolosPaired(kept[1..]);
    }
  }

  lemma RoundArranged(before: seq<Message>, final: seq<Message>, round: Round, keep: nat)
    requires Arranged(before) && Shaped(final) && UserSummaries(final)
    ensures Arranged(AfterRound(before, final, round, keep))
  {
    var added := Added(before, final);
    if added != [] {
      var kept := Retained(added, round);
      RetainedSolo(added, round);
      if before == [] {
        SolosArranged(kept);
        assert before + kept == kept;
      } else {
        ArrangedAppend(before, kept);
      }
      CapShape(before + kept, round.goalId, keep);
      ArrangedShape(before + kept, Cap(before + kept, round.goalId, keep));
    }
  }

  /** A round on an empty list is rolled back to the empty list and its records are put
      there, without a system message: after a round the transcript is well formed exactly
      when it was before and the round did not begin on an empty list and retain something. */
  lemma RoundWellFormedIff(before: seq<Message>, final: seq<Message>, round: Round, keep: nat)
    requires Arranged(before) && Shaped(final) && UserSummaries(final)
    ensures WellFormed(AfterRound(before, final, round, keep)) <==>
            WellFormed(before) && (before != [] || Retained(Added(before, final), round) == [])
  {
    RoundArranged(before, final, round, keep);
    var added := Added(before, final);
    if added != [] {
      var kept := Retained(added, round);
      RetainedSolo(added, round);
      CapShape(before + kept, round.goalId, keep);
      var after := Cap(before + kept, round.goalId, keep);
      if before == [] {
        assert before + kept == kept;
        assert kept != [] ==> SameShape(kept[0], after[0]);
      } else {
        assert SameShape(before[0], after[0]);
      }
    }
  }

  /** The first goal round of a new session. */
  lemma HeadlessRound(system: Message, prompt: Message, answer: Message)
    requires SystemHead(system) && prompt.role.User? && PlainAnswer(answer)
    ensures var after := AfterRound([], [system, prompt, answer], Round(true, false, "g", 1), 3);
            |after| == 1 && after[0].role.Assistant? && !WellFormed(after)
  {
    var round, added := Round(true, false, "g", 1), [system, prompt, answer];
    var published := answer.(goalAnswer := true, goalId := "g", goalRound := 1);
    assert Added([], added) == added;
    assert added[1..] == [prompt, answer] && added[1..][1..] == [answer] && [answer][1..] == [];
    assert Retained([answer], round) == [published];
    assert Retained([prompt, answer], round) == [published];
    assert Retained(added, round) == [published];
    CapShape([] + [published], "g", 3);
    assert SameShape(([] + [published])[0], Cap([] + [published], "g", 3)[0]);
  }
}
