/** The transcript snapshot of a Plan/Goal round is a shallow copy (gateway/dispatcher.py),
    so the round works on the very message objects the snapshot restores.  Lists hold
    references into a heap of messages.  Three operations write through a reference: the
    light pass replaces images (core/compressor.py), the start of a run rewrites the system
    message if a new prompt is pending (core/agent_runtime/loop.py), and the cap archives
    goal answers (gateway/dispatcher.py). */
module SharedSnapshot {
  import opened Text
  import opened Messages
  import opened LightCompression
  import opened RuntimeRounds

  type Ref = nat

  datatype Memory = Memory(heap: map<Ref, Message>, list: seq<Ref>)

  predicate Valid(s: Memory) {
    forall i :: 0 <= i < |s.list| ==> s.list[i] in s.heap
  }

  function Deref(heap: map<Ref, Message>, list: seq<Ref>): seq<Message>
    requires forall i :: 0 <= i < |list| ==> list[i] in heap
  {
    seq(|list|, i requires 0 <= i < |list| => heap[list[i]])
  }

  // ---------- a round ----------

  /** The start of a run writes a pending prompt into the system message. */
  function Reprompted(s: Memory, pending: Option<string>): (t: Memory)
    requires Valid(s)
    ensures Valid(t) && t.list == s.list
  {
    if pending.None? || s.list == [] || !s.heap[s.list[0]].role.System? then s
    else s.(heap := s.heap[s.list[0] := s.heap[s.list[0]].(content := Text(pending.value))])
  }

  datatype Act =
    | Rebuild(list: seq<Ref>, created: map<Ref, Message>)  // append, evict, summarise, replace a result by its stub
    | Fade(at: nat)                                        // replace images in place

  predicate Enabled(s: Memory, a: Act) {
    match a
    case Rebuild(list, created) =>
      created.Keys !! s.heap.Keys && forall i :: 0 <= i < |list| ==> list[i] in s.heap || list[i] in created
    case Fade(at) =>
      at < |s.list| && Valid(s) && Consumed(Deref(s.heap, s.list), at) &&
      !s.heap[s.list[at]].role.Tool? && !s.heap[s.list[at]].role.Assistant?
  }

  function Apply(s: Memory, a: Act): (t: Memory)
    requires Valid(s) && Enabled(s, a)
    ensures Valid(t)
  {
    match a
    case Rebuild(list, created) => Memory(s.heap + created, list)
    case Fade(at) => s.(heap := s.heap[s.list[at] := Downgrade(s.heap[s.list[at]])])
  }

  predicate Runs(s: Memory, acts: seq<Act>, t: Memory)
    requires Valid(s)
    ensures Runs(s, acts, t) ==> Valid(t)
    decreases |acts|
  {
    if acts == [] then s == t else Enabled(s, acts[0]) && Runs(Apply(s, acts[0]), acts[1..], t)
  }

  /** What is put behind the restored snapshot. */
  function Kept(s: Memory, t: Memory, round: Round): seq<Message>
    requires Valid(t)
  {
    if |t.list| <= |s.list| then [] else Retained(Deref(t.heap, t.list)[|s.list|..], round)
  }

  /** Assistant messages that make no calls. */
  function AnswerCount(ms: seq<Message>): nat {
    if ms == [] then 0
    else (if ms[0].role.Assistant? && !ms[0].kind.ToolCalls? then 1 else 0) + AnswerCount(ms[1..])
  }

  /** A round is one run, and a run appends one answer at most, its last message. */
  predicate OneAnswer(s: Memory, t: Memory)
    requires Valid(t)
  {
    |t.list| > |s.list| ==> AnswerCount(Deref(t.heap, t.list)[|s.list|..]) <= 1
  }

  /** The list after the rollback and before the cap; t is the memory at the end of the run. */
  function Values(s: Memory, t: Memory, round: Round): seq<Message>
    requires Valid(t) && forall i :: 0 <= i < |s.list| ==> s.list[i] in t.heap
  {
    Deref(t.heap, s.list) + Kept(s, t, round)
  }

  predicate Archives(s: Memory, t: Memory, round: Round, keep: nat, i: nat)
    requires Valid(t) && i < |s.list| && forall j :: 0 <= j < |s.list| ==> s.list[j] in t.heap
  {
    var vs := Values(s, t, round);
    && |t.list| > |s.list| && keep > 0 && round.goalId != ""
    && GoalAnswer(vs[i], round.goalId) && AnswersFrom(vs, round.goalId, i) > keep
  }

  /** The snapshot's objects when the round is over. */
  function Restored(s: Memory, t: Memory, round: Round, keep: nat): map<Ref, Message>
    requires Valid(t) && forall i :: 0 <= i < |s.list| ==> s.list[i] in t.heap
  {
    map r | r in t.heap ::
      if exists i :: 0 <= i < |s.list| && s.list[i] == r && Archives(s, t, round, keep, i) then Archived(t.heap[r])
      else t.heap[r]
  }

  predicate Distinct(list: seq<Ref>) {
    forall i, j :: 0 <= i < j < |list| ==> list[i] != list[j]
  }

  /** Read as values, the restored snapshot is the front of the list after the round. */
  lemma RestoredIsRound(s: Memory, t: Memory, round: Round, keep: nat)
    requires Valid(t) && Distinct(s.list) && forall i :: 0 <= i < |s.list| ==> s.list[i] in t.heap
    ensures var before := Deref(t.heap, s.list);
            var after := AfterRound(before, Deref(t.heap, t.list), round, keep);
            |after| >= |s.list| && Deref(Restored(s, t, round, keep), s.list) == after[..|s.list|]
  {
    var before, final := Deref(t.heap, s.list), Deref(t.heap, t.list);
    var after, heap := AfterRound(before, final, round, keep), Restored(s, t, round, keep);
    assert Added(before, final) == if |t.list| <= |s.list| then [] else final[|s.list|..];
    forall i | 0 <= i < |s.list| ensures |after| >= |s.list| && heap[s.list[i]] == after[i] {
      var vs := Values(s, t, round);
      assert vs[i] == t.heap[s.list[i]];
      if |t.list| > |s.list| && keep > 0 && round.goalId != "" {
        assert after[i] == CapAt(vs, round.goalId, keep, i);
      }
    }
  }

  // ---------- the shape survives ----------

  /** How an object may look when the run is over. */
  predicate Aged(a: Message, b: Message) {
    b == a || b == Downgrade(a)
  }

  lemma {:induction false} RoundAges(s: Memory, acts: seq<Act>, t: Memory)
    requires Valid(s) && Runs(s, acts, t)
    ensures forall r :: r in s.heap ==> r in t.heap && Aged(s.heap[r], t.heap[r])
    decreases |acts|
  {
    if acts != [] {
      var u := Apply(s, acts[0]);
      RoundAges(u, acts[1..], t);
      forall r | r in s.heap ensures r in t.heap && Aged(s.heap[r], t.heap[r]) {
        assert r in u.heap && Aged(s.heap[r], u.heap[r]);
        DowngradeTwice(s.heap[r]);
      }
    }
  }

  lemma RestoredShape(s: Memory, pending: Option<string>, t: Memory, round: Round, keep: nat, r: Ref)
    requires Valid(s) && Valid(t) && forall i :: 0 <= i < |s.list| ==> s.list[i] in t.heap
    requires r in s.heap && r in t.heap && r in Reprompted(s, pending).heap
    requires Aged(Reprompted(s, pending).heap[r], t.heap[r])
    ensures SameShape(s.heap[r], Restored(s, t, round, keep)[r])
  {
    assert SameShape(s.heap[r], Reprompted(s, pending).heap[r]);
    assert SameShape(s.heap[r], t.heap[r]);
  }

  /** Restoring the snapshot gives messages of the same shape; pairing is untouched. */
  lemma RollbackShape(s: Memory, pending: Option<string>, acts: seq<Act>, t: Memory, round: Round, keep: nat)
    requires Valid(s) && Runs(Reprompted(s, pending), acts, t)
    ensures forall i :: 0 <= i < |s.list| ==> s.list[i] in t.heap
    ensures var after := Deref(Restored(s, t, round, keep), s.list);
            && SameShapes(Deref(s.heap, s.list), after)
            && (WellFormed(Deref(s.heap, s.list)) ==> WellFormed(after))
  {
    var u := Reprompted(s, pending);
    RoundAges(u, acts, t);
    forall i | 0 <= i < |s.list| ensures s.list[i] in t.heap {
      assert s.list[i] in u.heap;
    }
    var before, after := Deref(s.heap, s.list), Deref(Restored(s, t, round, keep), s.list);
    forall i | 0 <= i < |before| ensures SameShape(before[i], after[i]) {
      RestoredShape(s, pending, t, round, keep, s.list[i]);
    }
    if WellFormed(before) {
      ArrangedShape(before, after);
    }
  }

  // ---------- when the rollback is exact ----------

  /** A message whose images a light pass could replace. */
  predicate Fadeable(m: Message) {
    !m.role.Tool? && !m.role.Assistant? && Downgrade(m) != m
  }

  predicate NothingFades(s: Memory)
    requires Valid(s)
  {
    forall i :: 0 <= i < |s.list| ==> !Fadeable(s.heap[s.list[i]])
  }

  /** No new prompt is pending for the system message. */
  predicate PromptStays(s: Memory, pending: Option<string>)
    requires Valid(s)
  {
    pending.None? || s.list == [] || !s.heap[s.list[0]].role.System? || s.heap[s.list[0]].content == Text(pending.value)
  }

  /** The goal answers that the round can push over the cap, in a goal round with one
      answer more, are archived already. */
  predicate AnswersStay(s: Memory, round: Round, keep: nat)
    requires Valid(s)
  {
    var ms := Deref(s.heap, s.list);
    keep == 0 || round.goalId == "" ||
    forall i :: 0 <= i < |ms| && GoalAnswer(ms[i], round.goalId) &&
                AnswersFrom(ms, round.goalId, i) + (if round.goal then 1 else 0) > keep ==>
      ms[i] == Archived(ms[i])
  }

  predicate SnapshotHolds(s: Memory, heap: map<Ref, Message>)
    requires Valid(s)
  {
    forall i :: 0 <= i < |s.list| ==> s.list[i] in heap && heap[s.list[i]] == s.heap[s.list[i]]
  }

  /** Every run of the round, whatever else it does, ends with the snapshot as it was. */
  ghost predicate RollbackExact(s: Memory, pending: Option<string>, round: Round, keep: nat)
    requires Valid(s)
  {
    forall acts, t | Runs(Reprompted(s, pending), acts, t) && OneAnswer(s, t) :: ExactAt(s, t, round, keep)
  }

  predicate ExactAt(s: Memory, t: Memory, round: Round, keep: nat)
    requires Valid(s)
  {
    Valid(t) && (forall i :: 0 <= i < |s.list| ==> s.list[i] in t.heap) && SnapshotHolds(s, Restored(s, t, round, keep))
  }

  lemma {:induction false} RefStays(s: Memory, acts: seq<Act>, t: Memory, r: Ref)
    requires Valid(s) && Runs(s, acts, t) && r in s.heap && !Fadeable(s.heap[r])
    ensures r in t.heap && t.heap[r] == s.heap[r]
    decreases |acts|
  {
    if acts != [] {
      RefStays(Apply(s, acts[0]), acts[1..], t, r);
    }
  }

  lemma PromptUnchanged(s: Memory, pending: Option<string>)
    requires Valid(s) && PromptStays(s, pending)
    ensures Reprompted(s, pending) == s
  {
    if pending.Some? && s.list != [] && s.heap[s.list[0]].role.System? {
      assert s.heap[s.list[0] := s.heap[s.list[0]]] == s.heap;
    }
  }

  lemma {:induction false} AnswersAppend(a: seq<Message>, b: seq<Message>, goalId: string, i: nat)
    requires i <= |a|
    ensures AnswersFrom(a + b, goalId, i) == AnswersFrom(a, goalId, i) + AnswersFrom(b, goalId, 0)
    decreases |a| - i
  {
    if i < |a| {
      AnswersAppend(a, b, goalId, i + 1);
    } else {
      AnswersShift(a, b, goalId, 0);
    }
  }

  lemma {:induction false} AnswersShift(a: seq<Message>, b: seq<Message>, goalId: string, i: nat)
    requires i <= |b|
    ensures AnswersFrom(a + b, goalId, |a| + i) == AnswersFrom(b, goalId, i)
    decreases |b| - i
  {
    if i < |b| {
      AnswersShift(a, b, goalId, i + 1);
    }
  }

  /** Only a goal round publishes goal answers, and no more than it gives. */
  lemma {:induction false} GoalKept(added: seq<Message>, round: Round, goalId: string)
    ensures AnswersFrom(Retained(added, round), goalId, 0) <= AnswerCount(added)
    ensures !round.goal ==> AnswersFrom(Retained(added, round), goalId, 0) == 0
  {
    if added != [] {
      GoalKept(added[1..], round, goalId);
      var one := RetainedOne(added[0], round);
      AnswersAppend(one, Retained(added[1..], round), goalId, 0);
      GoalKeptOne(added[0], round, goalId);
    }
  }

  lemma GoalKeptOne(m: Message, round: Round, goalId: string)
    ensures var one := RetainedOne(m, round);
            AnswersFrom(one, goalId, 0) <=
              if round.goal && m.role.Assistant? && !m.kind.ToolCalls? then 1 else 0
  {
    var one := RetainedOne(m, round);
    assert AnswersFrom(one, goalId, |one|) == 0;
    if one != [] {
      assert |one| == 1;
      assert GoalAnswer(one[0], goalId) ==> round.goal && m.role.Assistant? && !m.kind.ToolCalls?;
      assert AnswersFrom(one, goalId, 0) == if GoalAnswer(one[0], goalId) then 1 else 0;
    }
  }

  lemma StaysExact(s: Memory, acts: seq<Act>, t: Memory, round: Round, keep: nat)
    requires Valid(s) && Runs(s, acts, t) && OneAnswer(s, t) && NothingFades(s) && AnswersStay(s, round, keep)
    ensures ExactAt(s, t, round, keep)
  {
    forall i | 0 <= i < |s.list| ensures s.list[i] in t.heap && t.heap[s.list[i]] == s.heap[s.list[i]] {
      RefStays(s, acts, t, s.list[i]);
    }
    var ms, heap := Deref(s.heap, s.list), Restored(s, t, round, keep);
    assert Deref(t.heap, s.list) == ms;
    forall i | 0 <= i < |s.list| && Archives(s, t, round, keep, i) ensures ms[i] == Archived(ms[i]) {
      assert Values(s, t, round)[i] == ms[i];
      AnswersAppend(ms, Kept(s, t, round), round.goalId, i);
      GoalKept(Deref(t.heap, t.list)[|s.list|..], round, round.goalId);
    }
    forall i | 0 <= i < |s.list| ensures heap[s.list[i]] == s.heap[s.list[i]] {
      if j :| 0 <= j < |s.list| && s.list[j] == s.list[i] && Archives(s, t, round, keep, j) {
        assert ms[j] == Archived(ms[j]);
      }
    }
  }

  lemma {:induction false} UnusedRef(keys: set<Ref>) returns (r: Ref)
    ensures forall k :: k in keys ==> k < r
    decreases keys
  {
    if keys == {} {
      r := 0;
    } else {
      var k :| k in keys;
      var rest := UnusedRef(keys - {k});
      r := if k < rest then rest else k + 1;
      assert forall j :: j in keys ==> j == k || j in keys - {k};
    }
  }

  /** A run of which nothing remains but a new prompt. */
  lemma RepromptedRound(s: Memory, pending: Option<string>, round: Round, keep: nat)
    requires Valid(s) && !PromptStays(s, pending)
    ensures !RollbackExact(s, pending, round, keep)
  {
    var t := Reprompted(s, pending);
    assert Runs(t, [], t) && OneAnswer(s, t);
    assert Restored(s, t, round, keep)[s.list[0]] == t.heap[s.list[0]];
    assert !ExactAt(s, t, round, keep);
  }

  const OK := Bare(Assistant, Final, Text("ok"))

  lemma OneMore(s: Memory, t: Memory, r: Ref)
    requires Valid(t) && t.list == s.list + [r] && r in t.heap && t.heap[r] == OK
    ensures Deref(t.heap, t.list)[|s.list|..] == [OK] && OneAnswer(s, t)
  {
    assert Deref(t.heap, t.list)[|s.list|..] == [OK];
    assert AnswerCount([OK]) == 1 + AnswerCount([OK][1..]) && [OK][1..] == [];
  }

  /** One answer and one light pass are enough to lose the images of message i. */
  lemma FadingRound(s: Memory, i: nat, round: Round, keep: nat)
    requires Valid(s) && i < |s.list| && Fadeable(s.heap[s.list[i]])
    ensures exists acts, t :: Runs(s, acts, t) && OneAnswer(s, t) && !ExactAt(s, t, round, keep)
  {
    var r := UnusedRef(s.heap.Keys);
    var answer := Rebuild(s.list + [r], map[r := OK]);
    var t := Apply(s, answer);
    var ms := Deref(t.heap, t.list);
    assert ms[|s.list|].role.Assistant?;
    assert t.heap[t.list[i]] == s.heap[s.list[i]];
    assert Enabled(t, Fade(i));
    var u := Apply(t, Fade(i));
    var acts := [answer, Fade(i)];
    assert acts[1..] == [Fade(i)] && [Fade(i)][1..] == [];
    assert Runs(u, [], u);
    assert Runs(t, [Fade(i)], u);
    assert Runs(s, acts, u);
    assert u.heap[r] == OK;
    OneMore(s, u, r);
    FadedNotExact(s, u, i, round, keep);
  }

  lemma FadedNotExact(s: Memory, u: Memory, i: nat, round: Round, keep: nat)
    requires Valid(s) && Valid(u) && i < |s.list| && forall j :: 0 <= j < |s.list| ==> s.list[j] in u.heap
    requires u.heap[s.list[i]] != s.heap[s.list[i]] && !u.heap[s.list[i]].role.Assistant?
    ensures !ExactAt(s, u, round, keep)
  {
    forall j | 0 <= j < |s.list| && s.list[j] == s.list[i] ensures !Archives(s, u, round, keep, j) {
      assert Values(s, u, round)[j] == u.heap[s.list[i]];
    }
    assert Restored(s, u, round, keep)[s.list[i]] == u.heap[s.list[i]];
  }

  /** A run that gives one answer. */
  lemma AnsweringRun(s: Memory) returns (acts: seq<Act>, t: Memory)
    requires Valid(s)
    ensures Runs(s, acts, t) && OneAnswer(s, t)
    ensures forall r :: r in s.heap ==> r in t.heap && t.heap[r] == s.heap[r]
    ensures |t.list| == |s.list| + 1 && Deref(t.heap, t.list)[|s.list|..] == [OK]
  {
    var r := UnusedRef(s.heap.Keys);
    var act := Rebuild(s.list + [r], map[r := OK]);
    assert Enabled(s, act);
    t := Apply(s, act);
    acts := [act];
    assert acts[1..] == [];
    assert Runs(t, [], t);
    OneMore(s, t, r);
  }

  lemma OneKept(round: Round)
    requires round.goal
    ensures AnswersFrom(Retained([OK], round), round.goalId, 0) == 1
  {
    assert [OK][1..] == [];
    var one := RetainedOne(OK, round);
    assert Retained([OK], round) == one && |one| == 1 && GoalAnswer(one[0], round.goalId);
    assert AnswersFrom(one, round.goalId, 1) == 0;
  }

  /** One new answer pushes an old one over the cap if there are enough between them; in
      a round that publishes no goal answer they must be over it already. */
  lemma ArchivingRound(s: Memory, i: nat, round: Round, keep: nat)
    requires Valid(s) && i < |s.list| && keep > 0 && round.goalId != ""
    requires var ms := Deref(s.heap, s.list);
             GoalAnswer(ms[i], round.goalId) && ms[i] != Archived(ms[i]) &&
             AnswersFrom(ms, round.goalId, i) + (if round.goal then 1 else 0) > keep
    ensures exists acts, t :: Runs(s, acts, t) && OneAnswer(s, t) && !ExactAt(s, t, round, keep)
  {
    var ms := Deref(s.heap, s.list);
    var acts, t := AnsweringRun(s);
    assert Deref(t.heap, s.list) == ms;
    assert Kept(s, t, round) == Retained([OK], round);
    AnswersAppend(ms, Kept(s, t, round), round.goalId, i);
    if round.goal {
      OneKept(round);
    }
    assert Values(s, t, round)[i] == ms[i];
    assert Archives(s, t, round, keep, i);
    assert Restored(s, t, round, keep)[s.list[i]] == Archived(t.heap[s.list[i]]);
    assert !ExactAt(s, t, round, keep);
  }

  /** With no image, no pending prompt and fewer answers than the cap allows, the rollback
      is exact. */
  lemma FewAnswersExact(s: Memory, round: Round, keep: nat)
    requires Valid(s) && NothingFades(s) && AnswersFrom(Deref(s.heap, s.list), round.goalId, 0) < keep
    ensures RollbackExact(s, None, round, keep)
  {
    var ms := Deref(s.heap, s.list);
    forall i | 0 <= i < |ms| ensures AnswersFrom(ms, round.goalId, i) <= AnswersFrom(ms, round.goalId, 0) {
      FewerBehind(ms, round.goalId, i);
    }
    RollbackExactIff(s, None, round, keep);
  }

  lemma {:induction false} FewerBehind(ms: seq<Message>, goalId: string, i: nat)
    requires i <= |ms|
    ensures AnswersFrom(ms, goalId, i) <= AnswersFrom(ms, goalId, 0)
  {
    if i > 0 {
      FewerBehind(ms, goalId, i - 1);
    }
  }

  /** The rollback restores every message as it was, after every run of the round, exactly
      when the snapshot holds no image outside answers and tool results, no new prompt is
      pending for its system message, and the goal answers that the round can push over the
      cap are archived already. */
  lemma RollbackExactIff(s: Memory, pending: Option<string>, round: Round, keep: nat)
    requires Valid(s)
    ensures RollbackExact(s, pending, round, keep) <==>
            NothingFades(s) && PromptStays(s, pending) && AnswersStay(s, round, keep)
  {
    if !PromptStays(s, pending) {
      RepromptedRound(s, pending, round, keep);
    } else {
      PromptUnchanged(s, pending);
      if !NothingFades(s) {
        var i :| 0 <= i < |s.list| && Fadeable(s.heap[s.list[i]]);
        FadingRound(s, i, round, keep);
      } else if !AnswersStay(s, round, keep) {
        var ms := Deref(s.heap, s.list);
        var i :| 0 <= i < |ms| && GoalAnswer(ms[i], round.goalId) &&
                 AnswersFrom(ms, round.goalId, i) + (if round.goal then 1 else 0) > keep && ms[i] != Archived(ms[i]);
        ArchivingRound(s, i, round, keep);
      } else {
        forall acts, t | Runs(Reprompted(s, pending), acts, t) && OneAnswer(s, t)
          ensures ExactAt(s, t, round, keep)
        {
          StaysExact(s, acts, t, round, keep);
        }
      }
    }
  }

  lemma {:induction false} AnswersCounted(ms: seq<Message>)
    ensures AnswerCount(ms) <= 1 <==>
            forall i, j :: 0 <= i < j < |ms| && AnswerMessage(ms[i]) ==> !AnswerMessage(ms[j])
  {
    if ms != [] {
      AnswersCounted(ms[1..]);
      NoAnswersCounted(ms[1..]);
      assert forall i :: 0 < i < |ms| ==> ms[i] == ms[1..][i - 1];
    }
  }

  predicate AnswerMessage(m: Message) {
    m.role.Assistant? && !m.kind.ToolCalls?
  }

  lemma {:induction false} NoAnswersCounted(ms: seq<Message>)
    ensures AnswerCount(ms) == 0 <==> forall i :: 0 <= i < |ms| ==> !AnswerMessage(ms[i])
  {
    if ms != [] {
      NoAnswersCounted(ms[1..]);
      assert forall i :: 0 < i < |ms| ==> ms[i] == ms[1..][i - 1];
    }
  }
}
