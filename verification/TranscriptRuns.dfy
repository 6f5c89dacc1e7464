/** Every way the transcript changes between two turns, and what survives any sequence
    of them. */
module TranscriptRuns {
  import opened Messages
  import opened ProviderView
  import opened Text
  import opened Truncation
  import opened LightCompression
  import opened Compaction
  import opened Replay
  import opened RuntimeRounds

  datatype Op =
    | Clear
    | Restore(turns: seq<seq<Node>>, prompt: string)
    | Reprompt(prompt: string)
    | UserTurn(prompt: string, content: Content)
    | Batch(speech: Content, ids: seq<string>, observations: seq<Content>)
    | FinalAnswer(content: Content)
    | Truncate(live: nat, budget: int)
    | LightPass(mode: Mode)
    | FullCompaction(tailN: nat, summary: string)
    | IncrementalCompaction(tailN: nat, summary: string)
    | BackgroundRound(ops: seq<Op>, round: Round, keep: nat)

  function SystemMessage(prompt: string): Message {
    Bare(System, Plain, Text(prompt))
  }

  /** A tool batch: the declared calls and one observation per call, in source order. */
  function BatchMessages(text: Content, ids: seq<string>, observations: seq<Content>): seq<Message>
    requires |ids| == |observations|
  {
    [Bare(Assistant, ToolCalls, text).(calls := ids)] +
    seq(|ids|, i requires 0 <= i < |ids| => Bare(Tool, ToolResult, observations[i]).(callId := ids[i]))
  }

  function AfterFull(ms: seq<Message>, tailN: nat, text: string): seq<Message> {
    if FullTail(ms, tailN).None? then ms else Compacted(Head(ms), text, FullTail(ms, tailN).value)
  }

  function AfterIncremental(ms: seq<Message>, tailN: nat, text: string): seq<Message> {
    var s := SummaryIndex(ms);
    if s.None? then AfterFull(ms, tailN, text)
    else if SegmentTail(ms, s.value, tailN).None? then ms
    else Compacted(Head(ms), text, SegmentTail(ms, s.value, tailN).value)
  }

  /** The list after one operation that is no round.  Operations of a run start from a
      non-empty list. */
  function Direct(ms: seq<Message>, op: Op, describe: Message -> string): seq<Message>
    requires !op.BackgroundRound?
  {
    match op
    case Clear => []
    case Restore(turns, prompt) => Applied(History(turns), prompt)
    case Reprompt(prompt) =>
      if ms != [] && ms[0].role.System? then [ms[0].(content := Text(prompt))] + ms[1..] else ms
    case UserTurn(prompt, content) =>
      (if ms == [] then [SystemMessage(prompt)] else ms) + [Bare(User, Plain, content)]
    case Batch(text, ids, observations) =>
      if ms == [] || |ids| != |observations| then ms else ms + BatchMessages(text, ids, observations)
    case FinalAnswer(content) => if ms == [] then ms else ms + [Bare(Assistant, Final, content)]
    case Truncate(live, budget) => Truncated(ms, live, budget)
    case LightPass(mode) => Light(ms, mode, describe)
    case FullCompaction(tailN, text) => AfterFull(ms, tailN, text)
    case IncrementalCompaction(tailN, text) => AfterIncremental(ms, tailN, text)
  }

  function Apply(ms: seq<Message>, op: Op, describe: Message -> string): seq<Message>
    decreases op, 0
  {
    if op.BackgroundRound? then AfterRound(ms, Run(ms, op.ops, describe), op.round, op.keep)
    else Direct(ms, op, describe)
  }

  function Run(ms: seq<Message>, ops: seq<Op>, describe: Message -> string): seq<Message>
    decreases ops, 1
  {
    if ops == [] then ms
    else Run(Apply(ms, ops[0], describe), ops[1..], describe)
  }

  // ---------- what the operations are ----------

  /** A turn begins with the user's message, behind the system message in a new session; a
      batch appends its carrier and its results, an answer itself. */
  lemma AppendsAre(ms: seq<Message>, prompt: string, content: Content, ids: seq<string>, observations: seq<Content>,
                   describe: Message -> string)
    requires |ids| == |observations|
    ensures Direct(ms, UserTurn(prompt, content), describe) ==
            (if ms == [] then [Bare(System, Plain, Text(prompt))] else ms) + [Bare(User, Plain, content)]
    ensures ms != [] ==> Direct(ms, FinalAnswer(content), describe) == ms + [Bare(Assistant, Final, content)]
    ensures ms != [] ==>
      var r := Direct(ms, Batch(content, ids, observations), describe);
      && |r| == |ms| + 1 + |ids| && r[..|ms|] == ms
      && r[|ms|] == Bare(Assistant, ToolCalls, content).(calls := ids)
      && forall i :: 0 <= i < |ids| ==>
           r[|ms| + 1 + i] == Bare(Tool, ToolResult, observations[i]).(callId := ids[i])
  {
    if ms != [] {
      var batch := BatchMessages(content, ids, observations);
      assert |batch| == 1 + |ids| && forall i :: 0 <= i < |ids| ==> batch[1 + i].callId == ids[i];
    }
  }

  /** A new prompt is written into the system message, if there is one. */
  lemma RepromptIs(ms: seq<Message>, prompt: string, describe: Message -> string)
    ensures var r := Direct(ms, Reprompt(prompt), describe);
            && |r| == |ms| && (forall i :: 1 <= i < |ms| ==> r[i] == ms[i])
            && (ms != [] ==> r[0] == if ms[0].role.System? then ms[0].(content := Text(prompt)) else ms[0])
  {
  }

  /** A compaction puts head and summary in front of the kept tail; with nothing to compact
      the list stays.  Without an old summary the incremental one is a full one. */
  lemma FullIs(ms: seq<Message>, tailN: nat, text: string)
    ensures FullTail(ms, tailN).None? ==> AfterFull(ms, tailN, text) == ms
    ensures FullTail(ms, tailN).Some? ==>
            AfterFull(ms, tailN, text) == [Head(ms), SummaryMessage(text)] + FullTail(ms, tailN).value
  {
  }

  lemma SegmentIs(ms: seq<Message>, tailN: nat, text: string, s: nat)
    requires SummaryIndex(ms) == Some(s)
    ensures SegmentTail(ms, s, tailN).None? ==> AfterIncremental(ms, tailN, text) == ms
    ensures SegmentTail(ms, s, tailN).Some? ==>
            AfterIncremental(ms, tailN, text) == [Head(ms), SummaryMessage(text)] + SegmentTail(ms, s, tailN).value
  {
  }

  lemma IncrementalIs(ms: seq<Message>, tailN: nat, text: string)
    ensures SummaryIndex(ms).None? ==> AfterIncremental(ms, tailN, text) == AfterFull(ms, tailN, text)
  {
  }

  /** The other operations, and the order of a run. */
  lemma OperationsAre(ms: seq<Message>, op: Op, rest: seq<Op>, describe: Message -> string)
    ensures Run(ms, [op] + rest, describe) == Run(Apply(ms, op, describe), rest, describe)
    ensures Run(ms, [], describe) == ms
    ensures op.BackgroundRound? ==>
      Apply(ms, op, describe) == AfterRound(ms, Run(ms, op.ops, describe), op.round, op.keep)
    ensures op.Clear? ==> Apply(ms, op, describe) == []
    ensures op.Restore? ==> Apply(ms, op, describe) == Applied(History(op.turns), op.prompt)
    ensures op.Truncate? ==> Apply(ms, op, describe) == Truncated(ms, op.live, op.budget)
    ensures op.LightPass? ==> Apply(ms, op, describe) == Light(ms, op.mode, describe)
    ensures op.FullCompaction? ==> Apply(ms, op, describe) == AfterFull(ms, op.tailN, op.summary)
    ensures op.IncrementalCompaction? ==> Apply(ms, op, describe) == AfterIncremental(ms, op.tailN, op.summary)
    ensures !op.BackgroundRound? ==> Apply(ms, op, describe) == Direct(ms, op, describe)
  {
    assert ([op] + rest)[1..] == rest;
  }

  /** The invariant: an arranged transcript in which only tool-call messages declare calls. */
  predicate Inv(ms: seq<Message>) {
    Arranged(ms) && Shaped(ms)
  }

  lemma ShapedShape(a: seq<Message>, b: seq<Message>)
    requires Shaped(a) && SameShapes(a, b)
    ensures Shaped(b)
  {
    forall i | 0 <= i < |b| && b[i].calls != [] ensures b[i].role.Assistant? && b[i].kind.ToolCalls? {
      assert SameShape(a[i], b[i]);
    }
  }

  lemma ShapedWithin(a: seq<Message>, b: seq<Message>)
    requires Shaped(a) && forall m :: m in b ==> m in a || m.calls == []
    ensures Shaped(b)
  {
    forall i | 0 <= i < |b| && b[i].calls != [] ensures b[i].role.Assistant? && b[i].kind.ToolCalls? {
      assert b[i] in b;
    }
  }

  lemma CompactedInv(ms: seq<Message>, text: string, tail: seq<Message>)
    requires Inv(ms) && ms != [] && Head(ms) == ms[0] && forall m :: m in tail ==> m in ms
    requires Arranged(Compacted(Head(ms), text, tail))
    ensures Inv(Compacted(Head(ms), text, tail))
  {
    assert ms[0] in ms;
    ShapedWithin(ms, Compacted(Head(ms), text, tail));
  }

  lemma FullInv(ms: seq<Message>, tailN: nat, text: string)
    requires Inv(ms)
    ensures Inv(AfterFull(ms, tailN, text)) && (Headed(AfterFull(ms, tailN, text)) <==> Headed(ms))
  {
    if FullTail(ms, tailN).Some? {
      FullArranged(ms, tailN, text);
      CompactedInv(ms, text, FullTail(ms, tailN).value);
    }
  }

  lemma SegmentInv(ms: seq<Message>, tailN: nat, text: string)
    requires Inv(ms) && SummaryIndex(ms).Some? && SegmentTail(ms, SummaryIndex(ms).value, tailN).Some?
    ensures var r := Compacted(Head(ms), text, SegmentTail(ms, SummaryIndex(ms).value, tailN).value);
            Inv(r) && (Headed(r) <==> Headed(ms))
  {
    SegmentArranged(ms, tailN, text);
    CompactedInv(ms, text, SegmentTail(ms, SummaryIndex(ms).value, tailN).value);
  }

  lemma IncrementalInv(ms: seq<Message>, tailN: nat, text: string)
    requires Inv(ms)
    ensures Inv(AfterIncremental(ms, tailN, text)) && (Headed(AfterIncremental(ms, tailN, text)) <==> Headed(ms))
  {
    if SummaryIndex(ms).None? {
      FullInv(ms, tailN, text);
    } else if SegmentTail(ms, SummaryIndex(ms).value, tailN).Some? {
      SegmentInv(ms, tailN, text);
    }
  }

  lemma TruncatedInv(ms: seq<Message>, live: nat, budget: int)
    requires Inv(ms)
    ensures Inv(Truncated(ms, live, budget))
  {
    TruncatedArranged(ms, live, budget);
    if ms != [] {
      var cut := EvictSuffix(ms, budget);
      assert forall m :: m in [ms[0]] + ms[cut..] ==> m in ms;
      ShapedWithin(ms, Evict(ms, budget));
    }
  }

  lemma PartShaped(items: seq<Node>)
    requires items != []
    ensures Shaped(Part(items))
  {
    var n := Taken(items);
    match items[0] {
      case AssistantNode(_, _, _) => ResultsShaped(items[1..n]);
      case ToolNode(_, _, _, _, _, _) => ResultsShaped(items[..n]);
      case _ =>
    }
  }

  lemma {:induction false} TurnShaped(items: seq<Node>)
    ensures Shaped(Turn(items))
    decreases |items|
  {
    if items != [] {
      PartShaped(items);
      TurnShaped(items[Taken(items)..]);
    }
  }

  lemma {:induction false} ResultsShaped(run: seq<Node>)
    requires AllTools(run)
    ensures forall i :: 0 <= i < |Results(run)| ==> Results(run)[i].calls == []
  {
    if run != [] {
      ResultsShaped(run[1..]);
    }
  }

  lemma {:induction false} HistoryShaped(turns: seq<seq<Node>>)
    ensures Shaped(History(turns))
  {
    if turns != [] {
      TurnShaped(Replayable(turns[0]));
      HistoryShaped(turns[1..]);
    }
  }

  lemma AppendInv(ms: seq<Message>, added: seq<Message>)
    requires Inv(ms) && ms != [] && Paired(added) && Shaped(added)
    requires forall i :: 0 <= i < |added| ==> !added[i].role.System? && !Summary(added[i])
    ensures Inv(ms + added)
  {
    ArrangedAppend(ms, added);
  }

  lemma RoundInv(before: seq<Message>, final: seq<Message>, round: Round, keep: nat)
    requires Inv(before) && Inv(final)
    ensures Inv(AfterRound(before, final, round, keep))
  {
    RoundArranged(before, final, round, keep);
    var added := Added(before, final);
    if added != [] {
      var kept := Retained(added, round);
      RetainedShaped(added, round);
      CapShape(before + kept, round.goalId, keep);
      ShapedShape(before + kept, Cap(before + kept, round.goalId, keep));
    }
  }

  lemma {:induction false} RetainedShaped(added: seq<Message>, round: Round)
    requires Shaped(added)
    ensures Shaped(Retained(added, round))
  {
    if added != [] {
      RetainedShaped(added[1..], round);
    }
  }

  lemma RepromptInv(ms: seq<Message>, prompt: string)
    requires Inv(ms) && ms != []
    ensures Inv([ms[0].(content := Text(prompt))] + ms[1..])
  {
    var r := [ms[0].(content := Text(prompt))] + ms[1..];
    assert forall i :: 1 <= i < |r| ==> r[i] == ms[i];
    assert SameShapes(ms, r);
    ArrangedShape(ms, r);
    ShapedShape(ms, r);
  }

  lemma BatchInv(text: Content, ids: seq<string>, observations: seq<Content>)
    requires |ids| == |observations|
    ensures var batch := BatchMessages(text, ids, observations);
            Paired(batch) && Shaped(batch) &&
            forall i :: 0 <= i < |batch| ==> !batch[i].role.System? && !Summary(batch[i])
  {
    var batch := BatchMessages(text, ids, observations);
    BatchPaired(batch[0], batch[1..]);
    assert batch == [batch[0]] + batch[1..];
  }

  lemma DirectInv(ms: seq<Message>, op: Op, describe: Message -> string)
    requires Inv(ms) && !op.BackgroundRound?
    ensures Inv(Direct(ms, op, describe))
  {
    match op {
      case Clear =>
      case Restore(turns, prompt) => RestoreInv(turns, prompt);
      case Truncate(live, budget) => TruncatedInv(ms, live, budget);
      case LightPass(mode) => LightInv(ms, mode, describe);
      case FullCompaction(tailN, text) => FullInv(ms, tailN, text);
      case IncrementalCompaction(tailN, text) => IncrementalInv(ms, tailN, text);
      case _ => RunOpInv(ms, op, describe);
    }
  }

  predicate RunOp(op: Op) {
    op.Reprompt? || op.UserTurn? || op.Batch? || op.FinalAnswer?
  }

  /** What the run loop itself does to the list. */
  lemma RunOpInv(ms: seq<Message>, op: Op, describe: Message -> string)
    requires Inv(ms) && RunOp(op)
    ensures Inv(Direct(ms, op, describe))
  {
    match op {
      case Reprompt(prompt) =>
        if ms != [] {
          RepromptInv(ms, prompt);
        }
      case UserTurn(prompt, content) =>
        UserInv(if ms == [] then [SystemMessage(prompt)] else ms, content);
      case Batch(text, ids, observations) =>
        if ms != [] && |ids| == |observations| {
          BatchInv(text, ids, observations);
          AppendInv(ms, BatchMessages(text, ids, observations));
        }
      case FinalAnswer(content) =>
        if ms != [] {
          AnswerInv(ms, content);
        }
    }
  }

  lemma RestoreInv(turns: seq<seq<Node>>, prompt: string)
    ensures Inv(Applied(History(turns), prompt))
  {
    RestoredWellFormed(turns, prompt);
    HistoryShaped(turns);
  }

  lemma UserInv(ms: seq<Message>, content: Content)
    requires Inv(ms) && ms != []
    ensures Inv(ms + [Bare(User, Plain, content)])
  {
    SolosPaired([Bare(User, Plain, content)]);
    AppendInv(ms, [Bare(User, Plain, content)]);
  }

  lemma AnswerInv(ms: seq<Message>, content: Content)
    requires Inv(ms) && ms != []
    ensures Inv(ms + [Bare(Assistant, Final, content)])
  {
    SolosPaired([Bare(Assistant, Final, content)]);
    AppendInv(ms, [Bare(Assistant, Final, content)]);
  }

  lemma LightInv(ms: seq<Message>, mode: Mode, describe: Message -> string)
    requires Inv(ms)
    ensures Inv(Light(ms, mode, describe))
  {
    LightArranged(ms, mode, describe);
    LightShape(ms, mode, describe);
    ShapedShape(ms, Light(ms, mode, describe));
  }

  lemma {:induction false} ApplyInv(ms: seq<Message>, op: Op, describe: Message -> string)
    requires Inv(ms)
    ensures Inv(Apply(ms, op, describe))
    decreases op, 0
  {
    if op.BackgroundRound? {
      RunInv(ms, op.ops, describe);
      RoundInv(ms, Run(ms, op.ops, describe), op.round, op.keep);
    } else {
      DirectInv(ms, op, describe);
    }
  }

  /** Any sequence of operations, rounds nested in it included, keeps the invariant. */
  lemma {:induction false} RunInv(ms: seq<Message>, ops: seq<Op>, describe: Message -> string)
    requires Inv(ms)
    ensures Inv(Run(ms, ops, describe))
    decreases ops, 1
  {
    if ops != [] {
      ApplyInv(ms, ops[0], describe);
      RunInv(Apply(ms, ops[0], describe), ops[1..], describe);
    }
  }

  // ---------- the system message ----------

  /** A round that begins on an empty list and leaves records there. */
  predicate Beheads(ms: seq<Message>, op: Op, describe: Message -> string) {
    ms == [] && op.BackgroundRound? && Retained(Added([], Run([], op.ops, describe)), op.round) != []
  }

  lemma RoundHeadIff(ms: seq<Message>, op: Op, describe: Message -> string)
    requires Inv(ms) && op.BackgroundRound?
    ensures WellFormed(Apply(ms, op, describe)) <==> WellFormed(ms) && !Beheads(ms, op, describe)
  {
    RunInv(ms, op.ops, describe);
    RoundWellFormedIff(ms, Run(ms, op.ops, describe), op.round, op.keep);
  }

  predicate Renews(op: Op) {
    op.Clear? || op.Restore?
  }

  lemma DirectWellFormedIff(ms: seq<Message>, op: Op, describe: Message -> string)
    requires Inv(ms) && !op.BackgroundRound?
    ensures WellFormed(Direct(ms, op, describe)) <==> Renews(op) || WellFormed(ms)
  {
    DirectInv(ms, op, describe);
    match op {
      case Restore(turns, prompt) => RestoredWellFormed(turns, prompt);
      case Truncate(live, budget) => TruncatedArranged(ms, live, budget);
      case LightPass(mode) => LightArranged(ms, mode, describe);
      case FullCompaction(tailN, text) => FullInv(ms, tailN, text);
      case IncrementalCompaction(tailN, text) => IncrementalInv(ms, tailN, text);
      case _ =>
    }
  }

  /** An operation leaves a well-formed transcript exactly when it starts a new one, or the
      old one was well formed and the operation does not behead it. */
  lemma ApplyWellFormedIff(ms: seq<Message>, op: Op, describe: Message -> string)
    requires Inv(ms)
    ensures WellFormed(Apply(ms, op, describe)) <==>
            Renews(op) || (WellFormed(ms) && !Beheads(ms, op, describe))
  {
    if op.BackgroundRound? {
      RoundHeadIff(ms, op, describe);
    } else {
      DirectWellFormedIff(ms, op, describe);
    }
  }

  lemma {:induction false} RunLast(ms: seq<Message>, ops: seq<Op>, describe: Message -> string)
    requires ops != []
    ensures var n := |ops| - 1;
            Run(ms, ops, describe) == Apply(Run(ms, ops[..n], describe), ops[n], describe)
    decreases |ops|
  {
    var n := |ops| - 1;
    if n > 0 {
      assert ops[1..][..n - 1] == ops[..n][1..] && ops[1..][n - 1] == ops[n];
      RunLast(Apply(ms, ops[0], describe), ops[1..], describe);
    } else {
      assert ops[1..] == [] && ops[..0] == [];
    }
  }

  ghost predicate RenewedBehind(ops: seq<Op>, i: nat) {
    exists j :: i < j < |ops| && Renews(ops[j])
  }

  /** Every round that beheads the transcript is followed by a new start. */
  ghost predicate HeadKept(ops: seq<Op>, describe: Message -> string) {
    forall i :: 0 <= i < |ops| && Beheads(Run([], ops[..i], describe), ops[i], describe) ==> RenewedBehind(ops, i)
  }

  lemma HeadKeptLast(ops: seq<Op>, describe: Message -> string)
    requires ops != []
    ensures var n := |ops| - 1;
            HeadKept(ops, describe) <==>
            Renews(ops[n]) || (HeadKept(ops[..n], describe) && !Beheads(Run([], ops[..n], describe), ops[n], describe))
  {
    var n := |ops| - 1;
    var less := ops[..n];
    forall i | 0 <= i < n
      ensures less[..i] == ops[..i]
      ensures RenewedBehind(ops, i) <==> Renews(ops[n]) || RenewedBehind(less, i)
    {
      if RenewedBehind(less, i) {
        var j :| i < j < n && Renews(less[j]);
        assert Renews(ops[j]);
      }
      if RenewedBehind(ops, i) && !Renews(ops[n]) {
        var j :| i < j < |ops| && Renews(ops[j]);
        assert Renews(less[j]);
      }
    }
    assert !RenewedBehind(ops, n);
    if HeadKept(ops, describe) && !Renews(ops[n]) {
      forall i | 0 <= i < n && Beheads(Run([], less[..i], describe), less[i], describe) ensures RenewedBehind(less, i) {
        assert ops[i] == less[i] && less[..i] == ops[..i];
      }
    }
    if HeadKept(less, describe) && !Renews(ops[n]) {
      forall i | 0 <= i < n && Beheads(Run([], ops[..i], describe), ops[i], describe) ensures RenewedBehind(ops, i) {
        assert ops[i] == less[i] && less[..i] == ops[..i];
      }
    }
  }

  /** The same with every value of the step named, for a proof that must not unfold them. */
  lemma StepWellFormedIff(ms: seq<Message>, r: seq<Message>, op: Op, beheads: bool, describe: Message -> string)
    requires Inv(ms) && r == Apply(ms, op, describe) && beheads == Beheads(ms, op, describe)
    ensures WellFormed(r) <==> Renews(op) || (WellFormed(ms) && !beheads)
  {
    ApplyWellFormedIff(ms, op, describe);
  }

  lemma {:induction false} RunWellFormedIff(ops: seq<Op>, describe: Message -> string)
    ensures WellFormed(Run([], ops, describe)) <==> HeadKept(ops, describe)
    decreases |ops|
  {
    if ops != [] {
      var n := |ops| - 1;
      var before, after := Run([], ops[..n], describe), Run([], ops, describe);
      var keptBefore, beheads := HeadKept(ops[..n], describe), Beheads(before, ops[n], describe);
      assert HeadKept(ops, describe) <==> Renews(ops[n]) || (keptBefore && !beheads) by { HeadKeptLast(ops, describe); }
      assert WellFormed(after) <==> Renews(ops[n]) || (WellFormed(before) && !beheads) by {
        RunLast([], ops, describe);
        RunInv([], ops[..n], describe);
        StepWellFormedIff(before, after, ops[n], beheads, describe);
      }
      assert WellFormed(before) <==> keptBefore by { RunWellFormedIff(ops[..n], describe); }
    }
  }

  // ---------- published answers ----------

  predicate NoAnswers(ms: seq<Message>) {
    forall i :: 0 <= i < |ms| ==> !ms[i].goalAnswer
  }

  lemma {:induction false} NoneFull(ms: seq<Message>, goalId: string)
    requires NoAnswers(ms)
    ensures FullCount(ms, goalId) == 0
  {
    if ms != [] {
      NoneFull(ms[1..], goalId);
    }
  }

  lemma {:induction false} SameFull(a: seq<Message>, b: seq<Message>, goalId: string)
    requires |a| == |b|
    requires forall i :: 0 <= i < |a| ==> a[i] == b[i] || (!a[i].role.Assistant? && !b[i].role.Assistant?)
    ensures FullCount(a, goalId) == FullCount(b, goalId)
  {
    if a != [] {
      forall i | 0 <= i < |a[1..]|
        ensures a[1..][i] == b[1..][i] || (!a[1..][i].role.Assistant? && !b[1..][i].role.Assistant?)
      {
        assert a[1..][i] == a[i + 1] && b[1..][i] == b[i + 1];
      }
      SameFull(a[1..], b[1..], goalId);
    }
  }

  lemma FewerFull(ms: seq<Message>, cut: nat, middle: seq<Message>, goalId: string)
    requires ms != [] && 1 <= cut <= |ms| && NoAnswers(middle)
    ensures FullCount([ms[0]] + middle + ms[cut..], goalId) <= FullCount(ms, goalId)
  {
    var head, tail := [ms[0]], ms[cut..];
    FullConcat(head + middle, tail, goalId);
    FullConcat(head, middle, goalId);
    NoneFull(middle, goalId);
    FullConcat(head, ms[1..cut], goalId);
    FullConcat(head + ms[1..cut], tail, goalId);
    HeadCutTail(ms, cut);
  }

  lemma HeadCutTail(ms: seq<Message>, cut: nat)
    requires 1 <= cut <= |ms|
    ensures [ms[0]] + ms[1..cut] + ms[cut..] == ms
  {
  }

  lemma AppendBounded(ms: seq<Message>, added: seq<Message>, keep: nat)
    requires Bounded(ms, keep) && NoAnswers(added)
    ensures Bounded(ms + added, keep)
  {
    forall g | g != "" ensures FullCount(ms + added, g) <= keep {
      FullConcat(ms, added, g);
      NoneFull(added, g);
    }
  }

  lemma NoneBounded(ms: seq<Message>, keep: nat)
    requires NoAnswers(ms)
    ensures Bounded(ms, keep)
  {
    forall g | g != "" ensures FullCount(ms, g) <= keep {
      NoneFull(ms, g);
    }
  }

  lemma SameBounded(a: seq<Message>, b: seq<Message>, keep: nat)
    requires Bounded(a, keep) && |a| == |b|
    requires forall i :: 0 <= i < |a| ==> a[i] == b[i] || (!a[i].role.Assistant? && !b[i].role.Assistant?)
    ensures Bounded(b, keep)
  {
    forall g | g != "" ensures FullCount(b, g) <= keep {
      SameFull(a, b, g);
    }
  }

  lemma FewerBounded(ms: seq<Message>, cut: nat, middle: seq<Message>, r: seq<Message>, keep: nat)
    requires ms != [] && 1 <= cut <= |ms| && NoAnswers(middle) && Bounded(ms, keep)
    requires r == [ms[0]] + middle + ms[cut..]
    ensures Bounded(r, keep)
  {
    forall g | g != "" ensures FullCount(r, g) <= keep {
      FewerFull(ms, cut, middle, g);
    }
  }

  lemma CompactedBounded(ms: seq<Message>, text: string, cut: nat, keep: nat)
    requires ms != [] && 1 <= cut <= |ms| && Bounded(ms, keep)
    ensures Bounded(Compacted(ms[0], text, ms[cut..]), keep)
  {
    var middle := [SummaryMessage(text)];
    assert Compacted(ms[0], text, ms[cut..]) == [ms[0]] + middle + ms[cut..];
    FewerBounded(ms, cut, middle, Compacted(ms[0], text, ms[cut..]), keep);
  }

  lemma FullBounded(ms: seq<Message>, tailN: nat, text: string, keep: nat)
    requires Inv(ms) && Bounded(ms, keep)
    ensures Bounded(AfterFull(ms, tailN, text), keep)
  {
    if FullTail(ms, tailN).Some? {
      FullArranged(ms, tailN, text);
      CompactedBounded(ms, text, Boundary(ms, tailN), keep);
    }
  }

  lemma SegmentBounded(ms: seq<Message>, tailN: nat, text: string, keep: nat)
    requires Inv(ms) && Bounded(ms, keep)
    requires SummaryIndex(ms).Some? && SegmentTail(ms, SummaryIndex(ms).value, tailN).Some?
    ensures Bounded(Compacted(Head(ms), text, SegmentTail(ms, SummaryIndex(ms).value, tailN).value), keep)
  {
    SegmentArranged(ms, tailN, text);
    var tail := SegmentTail(ms, SummaryIndex(ms).value, tailN).value;
    var cut := SegmentCut(ms, SummaryIndex(ms).value, tailN);
    KeptBounded(ms, text, Head(ms), tail, cut, keep);
  }

  lemma SegmentCut(ms: seq<Message>, s: nat, tailN: nat) returns (cut: nat)
    requires s < |ms| && SegmentTail(ms, s, tailN).Some?
    ensures 1 <= cut <= |ms| && SegmentTail(ms, s, tailN).value == ms[cut..]
  {
    cut := s + 1 + Boundary(ms[s + 1..], tailN);
    SuffixOfSuffix(ms, s + 1, Boundary(ms[s + 1..], tailN));
  }

  lemma KeptBounded(ms: seq<Message>, text: string, head: Message, tail: seq<Message>, cut: nat, keep: nat)
    requires ms != [] && 1 <= cut <= |ms| && Bounded(ms, keep) && head == ms[0] && tail == ms[cut..]
    ensures Bounded(Compacted(head, text, tail), keep)
  {
    CompactedBounded(ms, text, cut, keep);
  }

  lemma SuffixOfSuffix(ms: seq<Message>, i: nat, j: nat)
    requires i + j <= |ms|
    ensures ms[i..][j..] == ms[i + j..]
  {
  }

  lemma IncrementalBounded(ms: seq<Message>, tailN: nat, text: string, keep: nat)
    requires Inv(ms) && Bounded(ms, keep)
    ensures Bounded(AfterIncremental(ms, tailN, text), keep)
  {
    if SummaryIndex(ms).None? {
      FullBounded(ms, tailN, text, keep);
    } else if SegmentTail(ms, SummaryIndex(ms).value, tailN).Some? {
      SegmentBounded(ms, tailN, text, keep);
    }
  }

  lemma TruncateBounded(ms: seq<Message>, live: nat, budget: int, keep: nat)
    requires Bounded(ms, keep)
    ensures Bounded(Truncated(ms, live, budget), keep)
  {
    if ms != [] {
      var cut := EvictSuffix(ms, budget);
      assert [ms[0]] + ms[cut..] == [ms[0]] + [] + ms[cut..];
      FewerBounded(ms, cut, [], Evict(ms, budget), keep);
    }
  }

  lemma {:induction false} HistoryNoAnswers(turns: seq<seq<Node>>)
    ensures NoAnswers(History(turns))
  {
    HistorySound(turns);
  }

  /** Every round of the run, outermost ones alone, is capped at `keep`. */
  predicate CappedAt(op: Op, keep: nat) {
    op.BackgroundRound? ==> op.keep == keep
  }

  lemma RunOpBounded(ms: seq<Message>, op: Op, keep: nat, describe: Message -> string)
    requires keep > 0 && Bounded(ms, keep) && RunOp(op)
    ensures Bounded(Direct(ms, op, describe), keep)
  {
    match op {
      case Reprompt(prompt) => SameBounded(ms, Direct(ms, op, describe), keep);
      case UserTurn(prompt, content) =>
        NoneBounded([SystemMessage(prompt)], keep);
        AppendBounded(if ms == [] then [SystemMessage(prompt)] else ms, [Bare(User, Plain, content)], keep);
      case Batch(text, ids, observations) =>
        if ms != [] && |ids| == |observations| {
          AppendBounded(ms, BatchMessages(text, ids, observations), keep);
        }
      case FinalAnswer(content) => AppendBounded(ms, [Bare(Assistant, Final, content)], keep);
    }
  }

  lemma DirectBounded(ms: seq<Message>, op: Op, keep: nat, describe: Message -> string)
    requires keep > 0 && Inv(ms) && Bounded(ms, keep) && !op.BackgroundRound?
    ensures Bounded(Direct(ms, op, describe), keep)
  {
    match op {
      case Clear => NoneBounded([], keep);
      case Restore(turns, prompt) =>
        HistoryNoAnswers(turns);
        NoneBounded(Applied(History(turns), prompt), keep);
      case Truncate(live, budget) => TruncateBounded(ms, live, budget, keep);
      case LightPass(mode) =>
        LightShape(ms, mode, describe);
        SameBounded(ms, Light(ms, mode, describe), keep);
      case FullCompaction(tailN, text) => FullBounded(ms, tailN, text, keep);
      case IncrementalCompaction(tailN, text) => IncrementalBounded(ms, tailN, text, keep);
      case _ => RunOpBounded(ms, op, keep, describe);
    }
  }

  lemma ApplyBounded(ms: seq<Message>, op: Op, keep: nat, describe: Message -> string)
    requires keep > 0 && Inv(ms) && Bounded(ms, keep) && CappedAt(op, keep)
    ensures Bounded(Apply(ms, op, describe), keep)
  {
    if op.BackgroundRound? {
      RoundBounded(ms, Run(ms, op.ops, describe), op.round, keep);
    } else {
      DirectBounded(ms, op, keep, describe);
    }
  }

  lemma {:induction false} RunBounded(ms: seq<Message>, ops: seq<Op>, keep: nat, describe: Message -> string)
    requires keep > 0 && Inv(ms) && Bounded(ms, keep) && forall i :: 0 <= i < |ops| ==> CappedAt(ops[i], keep)
    ensures Bounded(Run(ms, ops, describe), keep)
    decreases |ops|
  {
    if ops != [] {
      ApplyInv(ms, ops[0], describe);
      ApplyBounded(ms, ops[0], keep, describe);
      RunBounded(Apply(ms, ops[0], describe), ops[1..], keep, describe);
    }
  }

  // ---------- every reachable transcript ----------

  lemma InvPaired(ms: seq<Message>)
    requires Inv(ms)
    ensures Paired(ms)
  {
    if ms != [] {
      assert Solo(ms[0]);
    }
  }

  /** In every reachable transcript each visible tool message follows its carrier, every
      call is answered and the only summary is second; with named and distinct calls the
      model is sent exactly the visible messages, and a provider accepts them.  A system
      message is first exactly when no round has beheaded an empty transcript since the
      last new start. */
  lemma ReachableTranscript(ops: seq<Op>, describe: Message -> string)
    ensures var ms := Run([], ops, describe);
            && Arranged(ms) && Paired(ms)
            && (WellFormed(ms) <==> HeadKept(ops, describe))
            && (NamedCalls(ms) ==> ProviderAccepts(View(ms)))
            && (NamedCalls(ms) && DistinctCalls(ms) ==> View(ms) == Visible(ms))
  {
    var ms := Run([], ops, describe);
    RunInv([], ops, describe);
    RunWellFormedIff(ops, describe);
    ViewAccepted(ms);
    InvPaired(ms);
    if NamedCalls(ms) && DistinctCalls(ms) {
      ViewOfPaired(ms);
    }
  }

  /** With a fixed cap no reachable transcript holds more than `keep` full answers of any
      goal, however many rounds of however many goals there were. */
  lemma ReachableAnswers(ops: seq<Op>, keep: nat, describe: Message -> string)
    requires keep > 0 && forall i :: 0 <= i < |ops| ==> CappedAt(ops[i], keep)
    ensures forall g :: g != "" ==> FullCount(Run([], ops, describe), g) <= keep
  {
    RunBounded([], ops, keep, describe);
  }
}
