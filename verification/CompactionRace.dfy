/** Background compaction against new runs and rollbacks: the compactor takes its tail from
    the list it saw, asks the guard whether a run is active, and later replaces the list it
    finds then (core/compressor.py, agent.py, core/agent_runtime/loop.py).  The path without
    an old summary does not ask.  Several compactors can be at work at once.

    Messages carry ids, drawn when they enter the list, so that a message that comes back is
    told apart from a new one that reads the same. */
module CompactionRace {
  import opened Text
  import opened Messages
  import opened ProviderView
  import opened LightCompression
  import opened Compaction
  import opened RuntimeRounds

  /** What a compactor remembers across the call to the language model. */
  datatype Job = Job(
    taken: set<nat>,        // ids of the messages it saw
    tail: seq<Message>,
    tailIds: seq<nat>,
    owed: seq<string>,      // calls made in the tail that still waited for a result
    guarded: bool,
    passed: bool)           // the guard has said yes

  datatype Snapshot = Snapshot(list: seq<Message>, ids: seq<nat>)

  datatype State = State(
    list: seq<Message>,
    ids: seq<nat>,
    next: nat,
    running: bool,
    open: seq<string>,      // calls of the current batch still without a result
    jobs: map<nat, Job>,
    snapshot: Option<Snapshot>)

  datatype Step =
    | BeginRun
    | EndRun
    | AddUser(content: Content)
    | AddAnswer(content: Content)
    | AddCalls(ids: seq<string>)
    | AddResult(content: Content)
    | EvictTo(cut: nat)
    | LightPass(mode: Mode)
    | Look(k: nat, tailN: nat)
    | Guard(k: nat)
    | Replace(k: nat, summary: Message)
    | GiveUp(k: nat)
    | BeginRound                           // the dispatcher keeps a snapshot of the list
    | Rollback(round: Round, keep: nat)

  /** Where the tail of a compaction begins, if there is something to compact. */
  function PlanStart(ms: seq<Message>, tailN: nat): (r: Option<nat>)
    ensures r.Some? ==> 1 <= r.value <= |ms|
  {
    match SummaryIndex(ms)
    case None => if FullTail(ms, tailN).None? then None else Some(Boundary(ms, tailN))
    case Some(s) =>
      if SegmentTail(ms, s, tailN).None? then None else Some(s + 1 + Boundary(ms[s + 1..], tailN))
  }

  predicate AtBoundary(s: State) {
    s.open == []
  }

  predicate Enabled(s: State, step: Step) {
    match step
    case BeginRun => !s.running
    case EndRun => s.running && AtBoundary(s)
    case AddUser(_) => s.running && AtBoundary(s)
    case AddAnswer(_) => s.running && AtBoundary(s)
    case AddCalls(_) => s.running && AtBoundary(s)
    case AddResult(_) => s.running && s.open != []
    case EvictTo(cut) =>
      s.running && AtBoundary(s) && 1 <= cut <= |s.list| == |s.ids| && (cut < |s.list| ==> !VisibleTool(s.list[cut]))
    case LightPass(_) => s.running && AtBoundary(s)
    case Look(k, tailN) => k !in s.jobs && PlanStart(s.list, tailN).Some? && |s.list| == |s.ids|
    case Guard(k) => k in s.jobs && s.jobs[k].guarded && !s.running
    case Replace(k, summary) =>
      SummaryRecord(summary) && k in s.jobs && s.list != [] && s.ids != [] && (s.jobs[k].guarded ==> s.jobs[k].passed)
    case GiveUp(k) => k in s.jobs
    case BeginRound => !s.running && s.list != []
    case Rollback(_, _) => !s.running && s.snapshot.Some?
  }

  function Added1(s: State, m: Message): State {
    s.(list := s.list + [m], ids := s.ids + [s.next], next := s.next + 1)
  }

  function CarrierOf(ids: seq<string>): Message {
    Bare(Assistant, ToolCalls, Absent).(calls := ids)
  }

  function Result(id: string, content: Content): Message {
    Bare(Tool, ToolResult, content).(callId := id)
  }

  function JobAt(s: State, start: nat): Job
    requires start <= |s.list| == |s.ids|
  {
    var tail := s.list[start..];
    Job((set id | id in s.ids), tail, s.ids[start..], if tail == [] then [] else s.open,
        SummaryIndex(s.list).Some?, false)
  }

  function Replaced(s: State, k: nat, summary: Message): State
    requires Enabled(s, Replace(k, summary))
  {
    var j := s.jobs[k];
    s.(list := WithSummary(Head(s.list), summary, j.tail), ids := [s.ids[0], s.next] + j.tailIds,
       next := s.next + 1, jobs := s.jobs - {k})
  }

  function Fresh(from: nat, n: nat): (r: seq<nat>)
    ensures |r| == n
  {
    seq(n, i requires 0 <= i < n => from + i)
  }

  function RolledBack(s: State, round: Round, keep: nat): State
    requires s.snapshot.Some?
  {
    var was := s.snapshot.value;
    var added := Retained(Added(was.list, s.list), round);
    s.(list := AfterRound(was.list, s.list, round, keep), ids := was.ids + Fresh(s.next, |added|),
       next := s.next + |added|, snapshot := None)
  }

  function Next(s: State, step: Step, describe: Message -> string): State
    requires Enabled(s, step)
  {
    match step
    case BeginRun => s.(running := true)
    case EndRun => s.(running := false)
    case AddUser(content) => Added1(s, Bare(User, Plain, content))
    case AddAnswer(content) => Added1(s, Bare(Assistant, Final, content))
    case AddCalls(ids) => Added1(s, CarrierOf(ids)).(open := ids)
    case AddResult(content) => Added1(s, Result(s.open[0], content)).(open := s.open[1..])
    case EvictTo(cut) => s.(list := [s.list[0]] + s.list[cut..], ids := [s.ids[0]] + s.ids[cut..])
    case LightPass(mode) => s.(list := Light(s.list, mode, describe))
    case Look(k, tailN) => s.(jobs := s.jobs[k := JobAt(s, PlanStart(s.list, tailN).value)])
    case Guard(k) => s.(jobs := s.jobs[k := s.jobs[k].(passed := true)])
    case Replace(k, summary) => Replaced(s, k, summary)
    case GiveUp(k) => s.(jobs := s.jobs - {k})
    case BeginRound => s.(snapshot := Some(Snapshot(s.list, s.ids)))
    case Rollback(round, keep) => RolledBack(s, round, keep)
  }

  predicate Trace(s: State, steps: seq<Step>, describe: Message -> string, t: State)
    decreases |steps|
  {
    if steps == [] then s == t
    else Enabled(s, steps[0]) && Trace(Next(s, steps[0], describe), steps[1..], describe, t)
  }

  // ---------- the invariant ----------

  /** The run of tool results still to come, whatever they say. */
  function Awaited(ids: seq<string>): (r: seq<Message>)
    ensures |r| == |ids|
    ensures forall i :: 0 <= i < |ids| ==> r[i] == Result(ids[i], Absent)
  {
    seq(|ids|, i requires 0 <= i < |ids| => Result(ids[i], Absent))
  }

  /** A list in the middle of a batch is sound if it is well formed once the missing
      results are filled in. */
  predicate SoundList(ms: seq<Message>, open: seq<string>) {
    ms != [] && WellFormed(ms + Awaited(open))
  }

  predicate Sound(s: State) {
    SoundList(s.list, s.open)
  }

  predicate Ordinary(ms: seq<Message>) {
    forall i :: 0 <= i < |ms| ==> !ms[i].role.System? && !Summary(ms[i])
  }

  predicate TailFits(tail: seq<Message>, owed: seq<string>) {
    Ordinary(tail) && Shaped(tail) && Paired(tail + Awaited(owed))
  }

  ghost predicate JobsSound(jobs: map<nat, Job>) {
    forall k :: k in jobs ==> TailFits(jobs[k].tail, jobs[k].owed)
  }

  predicate SnapshotSound(s: State) {
    s.snapshot.Some? ==> var was := s.snapshot.value.list; was != [] && WellFormed(was) && Shaped(was)
  }

  predicate Resting(s: State) {
    !s.running ==> AtBoundary(s)
  }

  ghost predicate Inv(s: State) {
    Sound(s) && Shaped(s.list) && Resting(s) && JobsSound(s.jobs) && SnapshotSound(s) && |s.list| == |s.ids|
  }

  lemma NothingAwaited(ms: seq<Message>)
    ensures ms + Awaited([]) == ms
  {
  }

  lemma AppendAwaited(ms: seq<Message>, m: Message, open: seq<string>)
    ensures ms + [m] + Awaited(open) == ms + ([m] + Awaited(open))
  {
  }

  lemma AddedSound(ms: seq<Message>, m: Message)
    requires SoundList(ms, []) && Solo(m) && !Carrier(m) && !m.role.System? && !Summary(m)
    ensures SoundList(ms + [m], [])
  {
    NothingAwaited(ms);
    NothingAwaited(ms + [m]);
    SolosPaired([m]);
    ArrangedAppend(ms, [m]);
  }

  lemma CallsSound(ms: seq<Message>, ids: seq<string>)
    requires SoundList(ms, [])
    ensures SoundList(ms + [CarrierOf(ids)], ids)
  {
    NothingAwaited(ms);
    BatchPaired(CarrierOf(ids), Awaited(ids));
    AppendAwaited(ms, CarrierOf(ids), ids);
    ArrangedAppend(ms, [CarrierOf(ids)] + Awaited(ids));
  }

  lemma ResultShapes(ms: seq<Message>, open: seq<string>, content: Content)
    requires open != []
    ensures SameShapes(ms + Awaited(open), ms + [Result(open[0], content)] + Awaited(open[1..]))
    ensures SameShapes(ms + [Result(open[0], content)] + Awaited(open[1..]), ms + Awaited(open))
  {
    var was, now := ms + Awaited(open), ms + [Result(open[0], content)] + Awaited(open[1..]);
    forall i | 0 <= i < |was| ensures SameShape(was[i], now[i]) && SameShape(now[i], was[i]) {
      if i >= |ms| {
        assert was[i] == Awaited(open)[i - |ms|];
        assert i > |ms| ==> now[i] == Awaited(open[1..])[i - |ms| - 1];
      }
    }
  }

  /** A result neither mends nor breaks a list. */
  lemma ResultSoundIff(ms: seq<Message>, open: seq<string>, content: Content)
    requires open != [] && ms != []
    ensures SoundList(ms + [Result(open[0], content)], open[1..]) <==> SoundList(ms, open)
  {
    var was, now := ms + Awaited(open), ms + [Result(open[0], content)] + Awaited(open[1..]);
    ResultShapes(ms, open, content);
    if WellFormed(was) {
      ArrangedShape(was, now);
    }
    if WellFormed(now) {
      ArrangedShape(now, was);
    }
  }

  lemma EvictSound(ms: seq<Message>, cut: nat)
    requires SoundList(ms, []) && 1 <= cut <= |ms| && (cut < |ms| ==> !VisibleTool(ms[cut]))
    ensures SoundList([ms[0]] + ms[cut..], [])
  {
    NothingAwaited(ms);
    NothingAwaited([ms[0]] + ms[cut..]);
    ArrangedSuffix(ms, cut);
  }

  lemma LightSound(ms: seq<Message>, mode: Mode, describe: Message -> string)
    requires SoundList(ms, []) && Shaped(ms)
    ensures SoundList(Light(ms, mode, describe), []) && Shaped(Light(ms, mode, describe))
  {
    NothingAwaited(ms);
    NothingAwaited(Light(ms, mode, describe));
    LightArranged(ms, mode, describe);
    LightShape(ms, mode, describe);
    var r := Light(ms, mode, describe);
    forall i | 0 <= i < |r| && r[i].calls != [] ensures r[i].role.Assistant? && r[i].kind.ToolCalls? {
      assert SameShape(ms[i], r[i]);
    }
  }

  // ---------- the tail a compactor takes ----------

  lemma PlanCut(ms: seq<Message>, open: seq<string>, tailN: nat)
    requires SoundList(ms, open) && PlanStart(ms, tailN).Some?
    ensures var b := PlanStart(ms, tailN).value;
            && (b == 1 && |ms| > 1 ==> !Summary(ms[1]))
            && (b < |ms| ==> !VisibleTool(ms[b]))
  {
    var b, w := PlanStart(ms, tailN).value, ms + Awaited(open);
    assert forall i :: 0 <= i < |ms| ==> w[i] == ms[i];
    if SummaryIndex(ms).None? {
      BoundaryLargest(ms, tailN);
    } else {
      var s := SummaryIndex(ms).value;
      var segment := ms[s + 1..];
      BoundaryLargest(segment, tailN);
      assert s == 1 && b == 2 + Boundary(segment, tailN);
      assert b < |ms| ==> ms[b] == segment[b - 2] && ms[b - 1] == segment[b - 3];
    }
    if b < |ms| {
      NotCutBehindCarrier(w, b);
    }
  }

  lemma NotCutBehindCarrier(w: seq<Message>, b: nat)
    requires Arranged(w) && 1 <= b < |w|
    requires b > 1 ==> (w[b].role.Tool? ==> !w[b - 1].role.Tool? && !w[b - 1].role.Assistant?)
    ensures !VisibleTool(w[b])
  {
    if b == 1 {
      PairedHead(w[1..]);
    } else {
      BeforeTool(w[1..], b - 2);
      assert w[1..][b - 2] == w[b - 1] && w[1..][b - 1] == w[b];
    }
  }

  lemma LookSound(s: State, tailN: nat)
    requires Sound(s) && Shaped(s.list) && |s.list| == |s.ids| && PlanStart(s.list, tailN).Some?
    ensures var j := JobAt(s, PlanStart(s.list, tailN).value); TailFits(j.tail, j.owed)
  {
    var b := PlanStart(s.list, tailN).value;
    var tail, w := s.list[b..], s.list + Awaited(s.open);
    PlanCut(s.list, s.open, tailN);
    if tail == [] {
      NothingAwaited(tail);
    } else {
      assert w[b] == s.list[b] && w[1] == s.list[1];
      TailSound(w, b);
      CutAwaited(s.list, b, s.open);
      forall i | 0 <= i < |tail| ensures !tail[i].role.System? && !Summary(tail[i]) {
        assert w[b..][i] == tail[i];
      }
    }
  }

  lemma CutAwaited(ms: seq<Message>, b: nat, open: seq<string>)
    requires b <= |ms|
    ensures (ms + Awaited(open))[b..] == ms[b..] + Awaited(open)
  {
  }

  // ---------- when a replacement keeps pairing ----------

  lemma AwaitedUnpaired(ids: seq<string>)
    requires ids != []
    ensures !Paired(Awaited(ids))
  {
    assert VisibleTool(Awaited(ids)[0]);
  }

  lemma BatchTail(tail: seq<Message>, ids: seq<string>, n: nat)
    requires tail != [] && Carrier(tail[0]) && |tail[0].calls| == n && |tail| < 1 + n
    requires Paired(tail + Awaited(ids))
    ensures ids == tail[0].calls[|tail| - 1..]
  {
    var w := tail + Awaited(ids);
    assert w[0] == tail[0];
    var run := w[1..1 + n];
    forall i | |tail| - 1 <= i < n ensures tail[0].calls[i] == ids[i - (|tail| - 1)] {
      assert run[i] == w[1 + i] == Awaited(ids)[1 + i - |tail|];
    }
    var rest := ids[1 + n - |tail|..];
    assert w[1 + n..] == Awaited(rest);
    if rest != [] {
      AwaitedUnpaired(rest);
    }
  }

  lemma BehindGroup(tail: seq<Message>, ids: seq<string>, n: nat)
    requires n <= |tail| && tail != []
    requires Paired(tail + Awaited(ids)) && n == if Carrier(tail[0]) then 1 + |tail[0].calls| else 1
    ensures Paired(tail[n..] + Awaited(ids))
  {
    var w := tail + Awaited(ids);
    assert w[0] == tail[0];
    CutAwaited(tail, n, ids);
  }

  /** The results a tail waits for are determined by it. */
  lemma {:induction false} OwedUnique(tail: seq<Message>, a: seq<string>, b: seq<string>)
    requires Paired(tail + Awaited(a)) && Paired(tail + Awaited(b))
    ensures a == b
    decreases |tail|
  {
    if tail == [] {
      assert tail + Awaited(a) == Awaited(a) && tail + Awaited(b) == Awaited(b);
      if a != [] {
        AwaitedUnpaired(a);
      } else if b != [] {
        AwaitedUnpaired(b);
      }
    } else {
      var n := if Carrier(tail[0]) then 1 + |tail[0].calls| else 1;
      if |tail| < n {
        BatchTail(tail, a, n - 1);
        BatchTail(tail, b, n - 1);
      } else {
        BehindGroup(tail, a, n);
        BehindGroup(tail, b, n);
        OwedUnique(tail[n..], a, b);
      }
    }
  }

  lemma SoloBehind(m: Message, rest: seq<Message>)
    requires Paired([m] + rest) && !Carrier(m)
    ensures Paired(rest)
  {
    assert ([m] + rest)[1..] == rest;
  }

  lemma SummaryAwaited(head: Message, summary: Message, tail: seq<Message>, open: seq<string>)
    ensures WithSummary(head, summary, tail) + Awaited(open) == WithSummary(head, summary, tail + Awaited(open))
  {
  }

  lemma SummarySoundIff(head: Message, summary: Message, tail: seq<Message>, owed: seq<string>, open: seq<string>)
    requires SystemHead(head) && !Summary(head) && SummaryRecord(summary) && TailFits(tail, owed)
    ensures SoundList(WithSummary(head, summary, tail), open) <==> open == owed
  {
    SummaryAwaited(head, summary, tail, open);
    var all := tail + Awaited(open);
    if open == owed {
      SummaryArranged(head, summary, all);
    }
    if SoundList(WithSummary(head, summary, tail), open) {
      SummaryTail(head, summary, all);
      SoloBehind(summary, all);
      OwedUnique(tail, owed, open);
    }
  }

  lemma FirstIsHead(s: State)
    requires Sound(s)
    ensures Head(s.list) == s.list[0] && SystemHead(s.list[0]) && !Summary(s.list[0])
  {
    var w := s.list + Awaited(s.open);
    assert forall i :: 0 <= i < |s.list| ==> w[i] == s.list[i];
    HeadIsFirst(s.list);
  }

  /** The results missing from the list are those that the kept tail waits for. */
  predicate Fits(s: State, k: nat)
    requires k in s.jobs
  {
    s.open == s.jobs[k].owed
  }

  /** A replacement keeps pairing exactly when it fits. */
  lemma ReplaceIff(s: State, k: nat, summary: Message)
    requires Inv(s) && Enabled(s, Replace(k, summary))
    ensures Sound(Replaced(s, k, summary)) <==> Fits(s, k)
  {
    FirstIsHead(s);
    SummarySoundIff(s.list[0], summary, s.jobs[k].tail, s.jobs[k].owed, s.open);
  }

  lemma ReplaceInv(s: State, k: nat, summary: Message)
    requires Inv(s) && Enabled(s, Replace(k, summary)) && Fits(s, k)
    requires |s.jobs[k].tailIds| == |s.jobs[k].tail|
    ensures Inv(Replaced(s, k, summary))
  {
    ReplaceIff(s, k, summary);
    FirstIsHead(s);
    SummaryShaped(Head(s.list), summary, s.jobs[k].tail);
  }

  lemma SummaryShaped(head: Message, summary: Message, tail: seq<Message>)
    requires head.calls == [] && summary.calls == [] && Shaped(tail)
    ensures Shaped(WithSummary(head, summary, tail))
  {
    var list := WithSummary(head, summary, tail);
    forall i | 0 <= i < |list| && list[i].calls != [] ensures list[i].role.Assistant? && list[i].kind.ToolCalls? {
      assert i >= 2 ==> list[i] == tail[i - 2];
    }
  }

  lemma RollbackInv(s: State, round: Round, keep: nat)
    requires Inv(s) && Enabled(s, Rollback(round, keep)) && |s.snapshot.value.ids| == |s.snapshot.value.list|
    ensures Inv(RolledBack(s, round, keep))
  {
    var was := s.snapshot.value.list;
    NothingAwaited(s.list);
    NothingAwaited(RolledBack(s, round, keep).list);
    RoundWellFormedIff(was, s.list, round, keep);
    RoundShaped(was, s.list, round, keep);
  }

  lemma RoundShaped(before: seq<Message>, final: seq<Message>, round: Round, keep: nat)
    requires Shaped(before) && Shaped(final)
    ensures Shaped(AfterRound(before, final, round, keep))
    ensures |AfterRound(before, final, round, keep)| == |before| + |Retained(Added(before, final), round)|
  {
    var added := Added(before, final);
    if added != [] {
      var list := before + Retained(added, round);
      RetainedDeclares(added, round);
      CapShape(list, round.goalId, keep);
      var after := Cap(list, round.goalId, keep);
      forall i | 0 <= i < |after| && after[i].calls != []
        ensures after[i].role.Assistant? && after[i].kind.ToolCalls?
      {
        assert SameShape(list[i], after[i]);
      }
    }
  }

  lemma {:induction false} RetainedDeclares(added: seq<Message>, round: Round)
    requires Shaped(added)
    ensures Shaped(Retained(added, round))
  {
    if added != [] {
      RetainedDeclares(added[1..], round);
    }
  }

  // ---------- bookkeeping ----------

  predicate IdsOf(ids: seq<nat>, list: seq<Message>, next: nat) {
    && |ids| == |list| && ids != [] && ids[0] == 0 && next > 0
    && forall i :: 1 <= i < |ids| ==> 0 < ids[i] < next
  }

  predicate JobIds(j: Job, next: nat) {
    && |j.tailIds| == |j.tail| && 0 in j.taken
    && (forall id :: id in j.taken ==> id < next)
    && (forall i :: 0 <= i < |j.tailIds| ==> 0 < j.tailIds[i] && j.tailIds[i] in j.taken)
  }

  /** Ids agree with lists; this and the next invariant hold whatever is replaced when. */
  ghost predicate Booked(s: State) {
    && IdsOf(s.ids, s.list, s.next)
    && (forall k :: k in s.jobs ==> JobIds(s.jobs[k], s.next))
    && (s.snapshot.Some? ==> IdsOf(s.snapshot.value.ids, s.snapshot.value.list, s.next))
  }

  lemma LookBooked(s: State, k: nat, tailN: nat)
    requires Booked(s) && PlanStart(s.list, tailN).Some?
    ensures JobIds(JobAt(s, PlanStart(s.list, tailN).value), s.next)
  {
    var start := PlanStart(s.list, tailN).value;
    assert s.ids[0] in s.ids;
    forall i | 0 <= i < |s.ids[start..]| ensures 0 < s.ids[start..][i] && s.ids[start..][i] in s.ids {
      assert s.ids[start..][i] == s.ids[start + i];
    }
  }

  lemma RollbackBooked(s: State, round: Round, keep: nat)
    requires Booked(s) && s.snapshot.Some?
    ensures Booked(RolledBack(s, round, keep))
  {
    var was, t := s.snapshot.value, RolledBack(s, round, keep);
    var added := Added(was.list, s.list);
    assert |t.list| == |was.list| + |Retained(added, round)|;
  }

  lemma StepBooked(s: State, step: Step, describe: Message -> string)
    requires Booked(s) && Enabled(s, step)
    ensures Booked(Next(s, step, describe))
  {
    match step {
      case Look(k, tailN) => LookBooked(s, k, tailN);
      case Rollback(round, keep) => RollbackBooked(s, round, keep);
      case Replace(k, summary) => ReplaceBooked(s, k, summary);
      case EvictTo(cut) => EvictBooked(s, cut);
      case _ =>
    }
  }

  lemma ReplaceBooked(s: State, k: nat, summary: Message)
    requires Booked(s) && Enabled(s, Replace(k, summary))
    ensures Booked(Replaced(s, k, summary))
  {
    assert JobIds(s.jobs[k], s.next);
  }

  lemma EvictBooked(s: State, cut: nat)
    requires Booked(s) && 1 <= cut <= |s.list| == |s.ids|
    ensures IdsOf([s.ids[0]] + s.ids[cut..], [s.list[0]] + s.list[cut..], s.next)
  {
  }

  lemma {:induction false} TraceBooked(s: State, steps: seq<Step>, describe: Message -> string, t: State)
    requires Booked(s) && Trace(s, steps, describe, t)
    ensures Booked(t)
    decreases |steps|
  {
    if steps != [] {
      StepBooked(s, steps[0], describe);
      TraceBooked(Next(s, steps[0], describe), steps[1..], describe, t);
    }
  }

  // ---------- exactly which traces keep pairing ----------

  lemma RunStepInv(s: State, step: Step, describe: Message -> string)
    requires Inv(s) && Enabled(s, step)
    requires step.AddUser? || step.AddAnswer? || step.AddCalls? || step.AddResult? || step.EvictTo? || step.LightPass?
    ensures Inv(Next(s, step, describe))
  {
    match step {
      case AddUser(content) => AddedSound(s.list, Bare(User, Plain, content));
      case AddAnswer(content) => AddedSound(s.list, Bare(Assistant, Final, content));
      case AddCalls(ids) => CallsSound(s.list, ids);
      case AddResult(content) => ResultSoundIff(s.list, s.open, content);
      case EvictTo(cut) => EvictSound(s.list, cut);
      case LightPass(mode) => LightSound(s.list, mode, describe);
    }
  }

  lemma StepInv(s: State, step: Step, describe: Message -> string)
    requires Inv(s) && Booked(s) && Enabled(s, step) && (step.Replace? ==> Fits(s, step.k))
    ensures Inv(Next(s, step, describe))
  {
    match step {
      case Look(k, tailN) => LookSound(s, tailN);
      case Replace(k, summary) => ReplaceInv(s, k, summary);
      case Rollback(round, keep) => RollbackInv(s, round, keep);
      case AddUser(_) => RunStepInv(s, step, describe);
      case AddAnswer(_) => RunStepInv(s, step, describe);
      case AddCalls(_) => RunStepInv(s, step, describe);
      case AddResult(_) => RunStepInv(s, step, describe);
      case EvictTo(_) => RunStepInv(s, step, describe);
      case LightPass(_) => RunStepInv(s, step, describe);
      case _ => QuietStepInv(s, step, describe);
    }
  }

  lemma QuietStepInv(s: State, step: Step, describe: Message -> string)
    requires Inv(s) && Enabled(s, step)
    requires step.BeginRun? || step.EndRun? || step.Guard? || step.GiveUp? || step.BeginRound?
    ensures Inv(Next(s, step, describe))
  {
    NothingAwaited(s.list);
  }

  predicate AlwaysSound(s: State, steps: seq<Step>, describe: Message -> string)
    decreases |steps|
  {
    Sound(s) &&
    (steps != [] ==> Enabled(s, steps[0]) && AlwaysSound(Next(s, steps[0], describe), steps[1..], describe))
  }

  /** Every replacement in the trace fits. */
  predicate Fitting(s: State, steps: seq<Step>, describe: Message -> string)
    decreases |steps|
  {
    steps != [] ==>
      && Enabled(s, steps[0])
      && (steps[0].Replace? ==> Fits(s, steps[0].k))
      && Fitting(Next(s, steps[0], describe), steps[1..], describe)
  }

  /** Over all interleavings of runs, batches, rollbacks and any number of compactors:
      pairing holds in every state exactly when every replacement falls where the open calls
      are the ones its tail was cut with. */
  lemma {:induction false} PairedThroughoutIff(s: State, steps: seq<Step>, describe: Message -> string, t: State)
    requires Inv(s) && Booked(s) && Trace(s, steps, describe, t)
    ensures AlwaysSound(s, steps, describe) <==> Fitting(s, steps, describe)
    decreases |steps|
  {
    if steps != [] {
      var n := Next(s, steps[0], describe);
      if steps[0].Replace? {
        ReplaceIff(s, steps[0].k, steps[0].summary);
      }
      if steps[0].Replace? && !Fits(s, steps[0].k) {
        assert !Sound(n);
      } else {
        StepInv(s, steps[0], describe);
        StepBooked(s, steps[0], describe);
        PairedThroughoutIff(n, steps[1..], describe, t);
      }
    }
  }

  // ---------- what makes a replacement fit ----------

  /** Steps that are not about this compactor. */
  predicate Spares(steps: seq<Step>, k: nat) {
    forall i :: 0 <= i < |steps| ==>
      (steps[i].Look? || steps[i].Replace? || steps[i].GiveUp? ==> steps[i].k != k)
  }

  predicate NoRunBegins(steps: seq<Step>) {
    forall i :: 0 <= i < |steps| ==> !steps[i].BeginRun?
  }

  lemma {:induction false} JobKept(s: State, steps: seq<Step>, describe: Message -> string, t: State, k: nat)
    requires Trace(s, steps, describe, t) && Spares(steps, k) && k in s.jobs
    ensures k in t.jobs && t.jobs[k] == s.jobs[k].(passed := t.jobs[k].passed)
    ensures Resting(s) ==> Resting(t)
    ensures Resting(s) && !s.running && NoRunBegins(steps) ==> !t.running
    decreases |steps|
  {
    if steps != [] {
      var n := Next(s, steps[0], describe);
      assert k in n.jobs && n.jobs[k] == s.jobs[k].(passed := n.jobs[k].passed);
      JobKept(n, steps[1..], describe, t, k);
    }
  }

  /** A guarded replacement fits if the compactor looked between batches and no run began
      between the guard's answer and the replacement; the other two lemmas show that both
      are needed. */
  lemma GuardedCommitFits(s: State, k: nat, tailN: nat, first: seq<Step>, u: State, second: seq<Step>, t: State,
                          describe: Message -> string)
    requires Resting(s) && AtBoundary(s) && Enabled(s, Look(k, tailN))
    requires Trace(Next(s, Look(k, tailN), describe), first, describe, u) && Spares(first, k)
    requires Enabled(u, Guard(k)) && Trace(Next(u, Guard(k), describe), second, describe, t)
    requires Spares(second, k) && NoRunBegins(second)
    ensures k in t.jobs && Fits(t, k)
  {
    JobKept(Next(s, Look(k, tailN), describe), first, describe, u, k);
    JobKept(Next(u, Guard(k), describe), second, describe, t, k);
  }

  lemma Prepend(s: State, step: Step, rest: seq<Step>, describe: Message -> string, t: State)
    requires Enabled(s, step) && Trace(Next(s, step, describe), rest, describe, t)
    ensures Trace(s, [step] + rest, describe, t)
  {
    assert ([step] + rest)[1..] == rest;
  }

  lemma {:induction false} TraceConcat(s: State, a: seq<Step>, u: State, b: seq<Step>, describe: Message -> string,
                                       t: State)
    requires Trace(s, a, describe, u) && Trace(u, b, describe, t)
    ensures Trace(s, a + b, describe, t)
    decreases |a|
  {
    if a == [] {
      assert a + b == b;
    } else {
      assert (a + b)[1..] == a[1..] + b;
      TraceConcat(Next(s, a[0], describe), a[1..], u, b, describe, t);
    }
  }

  lemma OneStep(s: State, step: Step, describe: Message -> string, t: State)
    requires Enabled(s, step) && t == Next(s, step, describe)
    ensures Trace(s, [step], describe, t)
  {
    assert [step][1..] == [];
  }

  lemma TwoSteps(s: State, a: Step, u: State, b: Step, describe: Message -> string, t: State)
    requires Enabled(s, a) && u == Next(s, a, describe) && Enabled(u, b) && t == Next(u, b, describe)
    ensures Trace(s, [a, b], describe, t)
  {
    OneStep(u, b, describe, t);
    Prepend(s, a, [b], describe, t);
    assert [a] + [b] == [a, b];
  }

  /** A compactor that looks between batches. */
  lemma LookBetween(s: State, k: nat, tailN: nat, describe: Message -> string) returns (u: State)
    requires Booked(s) && AtBoundary(s) && Enabled(s, Look(k, tailN))
    ensures Trace(s, [Look(k, tailN)], describe, u) && Booked(u) && (Inv(s) ==> Inv(u))
    ensures k in u.jobs && u == s.(jobs := u.jobs) && u.jobs[k].owed == []
    ensures u.jobs[k].guarded <==> SummaryIndex(s.list).Some?
  {
    u := Next(s, Look(k, tailN), describe);
    OneStep(s, Look(k, tailN), describe, u);
    StepBooked(s, Look(k, tailN), describe);
    if Inv(s) {
      StepInv(s, Look(k, tailN), describe);
    }
  }

  lemma GuardPasses(s: State, k: nat, describe: Message -> string) returns (u: State)
    requires Booked(s) && Enabled(s, Guard(k))
    ensures Trace(s, [Guard(k)], describe, u) && Booked(u) && (Inv(s) ==> Inv(u))
    ensures u == s.(jobs := s.jobs[k := s.jobs[k].(passed := true)])
  {
    u := Next(s, Guard(k), describe);
    OneStep(s, Guard(k), describe, u);
    StepBooked(s, Guard(k), describe);
    if Inv(s) {
      StepInv(s, Guard(k), describe);
    }
  }

  /** A replacement with a call out that its tail does not know of. */
  lemma CallThenReplace(s: State, k: nat, id: string, summary: Message, describe: Message -> string)
    returns (u: State, t: State)
    requires Inv(s) && Booked(s) && s.running && AtBoundary(s) && SummaryRecord(summary)
    requires k in s.jobs && s.jobs[k].owed == [] && (s.jobs[k].guarded ==> s.jobs[k].passed)
    ensures Trace(s, [AddCalls([id]), Replace(k, summary)], describe, t) && !Sound(t)
    ensures t.running && t.open == [id] && t.list != []
  {
    u := Next(s, AddCalls([id]), describe);
    RunStepInv(s, AddCalls([id]), describe);
    ReplaceIff(u, k, summary);
    t := Next(u, Replace(k, summary), describe);
    TwoSteps(s, AddCalls([id]), u, Replace(k, summary), describe, t);
  }

  /** The guard says yes, a run begins and makes a call, and only then comes the
      replacement: wherever a guarded compaction can start, it can break pairing. */
  lemma LateReplace(s: State, k: nat, tailN: nat, id: string, summary: Message, describe: Message -> string)
    returns (steps: seq<Step>, t: State)
    requires Inv(s) && Booked(s) && !s.running && SummaryRecord(summary)
    requires Enabled(s, Look(k, tailN)) && SummaryIndex(s.list).Some?
    ensures steps == [Look(k, tailN)] + [Guard(k)] + [BeginRun] + [AddCalls([id]), Replace(k, summary)]
    ensures Trace(s, steps, describe, t) && !Sound(t)
  {
    var s1 := LookBetween(s, k, tailN, describe);
    var s2 := GuardPasses(s1, k, describe);
    var s3 := s2.(running := true);
    OneStep(s2, BeginRun, describe, s3);
    var s4;
    s4, t := CallThenReplace(s3, k, id, summary, describe);
    TraceConcat(s, [Look(k, tailN)], s1, [Guard(k)], describe, s2);
    TraceConcat(s, [Look(k, tailN)] + [Guard(k)], s2, [BeginRun], describe, s3);
    steps := [Look(k, tailN)] + [Guard(k)] + [BeginRun] + [AddCalls([id]), Replace(k, summary)];
    TraceConcat(s, [Look(k, tailN)] + [Guard(k)] + [BeginRun], s3, [AddCalls([id]), Replace(k, summary)], describe, t);
  }

  /** The list right after a run has made one call. */
  function Calling(s: State, id: string): State {
    Added1(s, CarrierOf([id])).(open := [id])
  }

  lemma LookInBatch(s: State, k: nat, tailN: nat, describe: Message -> string) returns (u: State)
    requires Inv(s) && Booked(s) && Enabled(s, Look(k, tailN)) && PlanStart(s.list, tailN).value < |s.list|
    ensures Trace(s, [Look(k, tailN)], describe, u) && Booked(u) && Inv(u)
    ensures k in u.jobs && u == s.(jobs := u.jobs) && u.jobs[k].owed == s.open
    ensures u.jobs[k].guarded <==> SummaryIndex(s.list).Some?
  {
    u := Next(s, Look(k, tailN), describe);
    OneStep(s, Look(k, tailN), describe, u);
    StepBooked(s, Look(k, tailN), describe);
    StepInv(s, Look(k, tailN), describe);
  }

  /** The last result of a batch arrives and the run ends. */
  lemma BatchEnds(s: State, content: Content, describe: Message -> string) returns (t: State)
    requires Inv(s) && Booked(s) && s.running && |s.open| == 1
    ensures Trace(s, [AddResult(content), EndRun], describe, t) && Inv(t) && Booked(t)
    ensures !t.running && AtBoundary(t) && t.jobs == s.jobs
  {
    var u := Next(s, AddResult(content), describe);
    RunStepInv(s, AddResult(content), describe);
    StepBooked(s, AddResult(content), describe);
    t := u.(running := false);
    StepInv(u, EndRun, describe);
    TwoSteps(s, AddResult(content), u, EndRun, describe, t);
  }

  lemma ReplaceTooLate(s: State, k: nat, summary: Message, describe: Message -> string) returns (t: State)
    requires Inv(s) && Booked(s) && !s.running && k in s.jobs && s.jobs[k].guarded && s.jobs[k].owed != []
    requires SummaryRecord(summary)
    ensures Trace(s, [Guard(k)] + [Replace(k, summary)], describe, t) && AtBoundary(t) && !WellFormed(t.list)
  {
    var u := GuardPasses(s, k, describe);
    ReplaceIff(u, k, summary);
    t := Next(u, Replace(k, summary), describe);
    NothingAwaited(t.list);
    OneStep(u, Replace(k, summary), describe, t);
    TraceConcat(s, [Guard(k)], u, [Replace(k, summary)], describe, t);
  }

  /** The compactor looks while a call is out and keeps its carrier in the tail; the run
      then ends, the guard says yes, and the replacement drops the result. */
  lemma EarlyLook(s: State, k: nat, tailN: nat, id: string, content: Content, summary: Message,
                  describe: Message -> string)
    returns (steps: seq<Step>, t: State)
    requires Inv(s) && Booked(s) && s.running && AtBoundary(s) && k !in s.jobs && SummaryRecord(summary)
    requires var ms := Calling(s, id).list;
             SummaryIndex(ms).Some? && PlanStart(ms, tailN).Some? && PlanStart(ms, tailN).value < |ms|
    ensures steps ==
      [AddCalls([id])] + [Look(k, tailN)] + [AddResult(content), EndRun] + ([Guard(k)] + [Replace(k, summary)])
    ensures Trace(s, steps, describe, t) && AtBoundary(t) && !WellFormed(t.list)
  {
    var s1 := Calling(s, id);
    OneStep(s, AddCalls([id]), describe, s1);
    RunStepInv(s, AddCalls([id]), describe);
    StepBooked(s, AddCalls([id]), describe);
    var s2 := LookInBatch(s1, k, tailN, describe);
    var s3 := BatchEnds(s2, content, describe);
    t := ReplaceTooLate(s3, k, summary, describe);
    TraceConcat(s, [AddCalls([id])], s1, [Look(k, tailN)], describe, s2);
    TraceConcat(s, [AddCalls([id])] + [Look(k, tailN)], s2, [AddResult(content), EndRun], describe, s3);
    steps := [AddCalls([id])] + [Look(k, tailN)] + [AddResult(content), EndRun] + ([Guard(k)] + [Replace(k, summary)]);
    TraceConcat(s, [AddCalls([id])] + [Look(k, tailN)] + [AddResult(content), EndRun], s3,
                [Guard(k)] + [Replace(k, summary)], describe, t);
  }

  /** Without a summary the replacement is not guarded at all: it can fall between a call
      and its result, and the result then stands alone. */
  lemma UnguardedOrphan(s: State, k: nat, tailN: nat, id: string, content: Content, summary: Message,
                        describe: Message -> string)
    returns (steps: seq<Step>, t: State)
    requires Inv(s) && Booked(s) && s.running && AtBoundary(s) && SummaryRecord(summary)
    requires Enabled(s, Look(k, tailN)) && SummaryIndex(s.list).None?
    ensures steps == [Look(k, tailN)] + [AddCalls([id]), Replace(k, summary)] + [AddResult(content)]
    ensures Trace(s, steps, describe, t) && AtBoundary(t) && !WellFormed(t.list)
  {
    var s1 := LookBetween(s, k, tailN, describe);
    var s2, s3 := CallThenReplace(s1, k, id, summary, describe);
    t := Next(s3, AddResult(content), describe);
    OneStep(s3, AddResult(content), describe, t);
    ResultSoundIff(s3.list, s3.open, content);
    NothingAwaited(t.list);
    TraceConcat(s, [Look(k, tailN)], s1, [AddCalls([id]), Replace(k, summary)], describe, s3);
    steps := [Look(k, tailN)] + [AddCalls([id]), Replace(k, summary)] + [AddResult(content)];
    TraceConcat(s, [Look(k, tailN)] + [AddCalls([id]), Replace(k, summary)], s3, [AddResult(content)], describe, t);
  }

  /** The replacement itself empties the list and then extends it.  Whatever another thread
      appends in between ends up in front of the system message. */
  lemma TornReplaceIff(between: seq<Message>, head: Message, summary: Message, tail: seq<Message>)
    requires SystemHead(head) && WellFormed(WithSummary(head, summary, tail))
    ensures WellFormed(between + WithSummary(head, summary, tail)) <==> between == []
  {
    var list := between + WithSummary(head, summary, tail);
    if between == [] {
      assert list == WithSummary(head, summary, tail);
    } else {
      assert list[|between|] == head;
    }
  }

  // ---------- what a replacement loses ----------

  /** Messages of the list, behind the first, that the compactor has not seen. */
  function Unseen(s: State, k: nat): set<nat>
    requires k in s.jobs
  {
    set i | 1 <= i < |s.ids| && s.ids[i] !in s.jobs[k].taken :: s.ids[i]
  }

  lemma UnseenIs(s: State, k: nat)
    requires Booked(s) && k in s.jobs
    ensures forall id :: id in Unseen(s, k) <==> id in s.ids && id !in s.jobs[k].taken
  {
    assert JobIds(s.jobs[k], s.next);
    forall id | id in s.ids && id !in s.jobs[k].taken ensures id in Unseen(s, k) {
      var i :| 0 <= i < |s.ids| && s.ids[i] == id;
      assert i != 0;
    }
  }

  lemma ReplacedIds(s: State, k: nat, summary: Message, id: nat)
    requires Booked(s) && Enabled(s, Replace(k, summary))
    ensures id in Replaced(s, k, summary).ids <==> id == 0 || id == s.next || id in s.jobs[k].tailIds
  {
    var t := Replaced(s, k, summary);
    assert t.ids == [0, s.next] + s.jobs[k].tailIds;
  }

  /** Every message the compactor saw is summarised or kept; of the others the replacement
      drops exactly the unseen ones. */
  lemma ReplaceLoses(s: State, k: nat, summary: Message)
    requires Booked(s) && Enabled(s, Replace(k, summary))
    ensures var t := Replaced(s, k, summary);
            && (forall id :: id in Unseen(s, k) <==> id in s.ids && id !in t.ids && id !in s.jobs[k].taken)
            && (forall id :: id in t.ids ==> id == s.next || id in s.jobs[k].taken)
  {
    var t, j := Replaced(s, k, summary), s.jobs[k];
    UnseenIs(s, k);
    assert JobIds(j, s.next);
    forall id {
      ReplacedIds(s, k, summary, id);
    }
    assert forall id :: id in s.ids ==> id < s.next;
  }

  /** The ids that a step puts into the list. */
  function Brought(s: State, step: Step): set<nat>
    requires Enabled(s, step)
  {
    match step
    case AddUser(_) => {s.next}
    case AddAnswer(_) => {s.next}
    case AddCalls(_) => {s.next}
    case AddResult(_) => {s.next}
    case Replace(k, _) => {s.next} + set id | id in s.jobs[k].tailIds
    case Rollback(round, _) =>
      var was := s.snapshot.value;
      set id | id in was.ids + Fresh(s.next, |Retained(Added(was.list, s.list), round)|)
    case _ => {}
  }

  function BroughtBy(s: State, steps: seq<Step>, describe: Message -> string, t: State): set<nat>
    requires Trace(s, steps, describe, t)
    decreases |steps|
  {
    if steps == [] then {}
    else Brought(s, steps[0]) + BroughtBy(Next(s, steps[0], describe), steps[1..], describe, t)
  }

  lemma StepBrings(s: State, step: Step, describe: Message -> string)
    requires Booked(s) && Enabled(s, step)
    ensures forall id :: id in Next(s, step, describe).ids ==> id in s.ids || id in Brought(s, step)
  {
  }

  lemma {:induction false} TraceBrings(s: State, steps: seq<Step>, describe: Message -> string, t: State)
    requires Booked(s) && Trace(s, steps, describe, t)
    ensures forall id :: id in t.ids ==> id in s.ids || id in BroughtBy(s, steps, describe, t)
    decreases |steps|
  {
    if steps != [] {
      StepBrings(s, steps[0], describe);
      StepBooked(s, steps[0], describe);
      TraceBrings(Next(s, steps[0], describe), steps[1..], describe, t);
    }
  }

  /** Between look and replacement, over all interleavings: the replacement loses nothing
      exactly when every message that some step has put into the list since, and that the
      compactor had not seen, has left the list again. */
  lemma LosslessCommitIff(s: State, k: nat, tailN: nat, steps: seq<Step>, describe: Message -> string, t: State)
    requires Booked(s) && Enabled(s, Look(k, tailN))
    requires Trace(Next(s, Look(k, tailN), describe), steps, describe, t) && Spares(steps, k)
    ensures k in t.jobs
    ensures var brought := BroughtBy(Next(s, Look(k, tailN), describe), steps, describe, t);
            Unseen(t, k) == {} <==> forall id :: id in brought && id in t.ids ==> id in t.jobs[k].taken
  {
    var s1 := Next(s, Look(k, tailN), describe);
    StepBooked(s, Look(k, tailN), describe);
    TraceBooked(s1, steps, describe, t);
    JobKept(s1, steps, describe, t, k);
    TraceBrings(s1, steps, describe, t);
    UnseenIs(t, k);
    assert forall id :: id in s1.ids <==> id in t.jobs[k].taken;
  }

  predicate Adds(step: Step) {
    step.AddUser? || step.AddAnswer? || step.AddCalls? || step.AddResult?
  }

  function CountAdds(steps: seq<Step>): nat {
    if steps == [] then 0 else (if Adds(steps[0]) then 1 else 0) + CountAdds(steps[1..])
  }

  /** Steps that take nothing out of the list. */
  predicate Growing(steps: seq<Step>) {
    forall i :: 0 <= i < |steps| ==> !steps[i].EvictTo? && !steps[i].Replace? && !steps[i].Rollback?
  }

  lemma {:induction false} GrowingIds(s: State, steps: seq<Step>, describe: Message -> string, t: State)
    requires Trace(s, steps, describe, t) && Growing(steps)
    ensures t.next == s.next + CountAdds(steps) && t.ids == s.ids + Fresh(s.next, CountAdds(steps))
    decreases |steps|
  {
    if steps == [] {
      assert s.ids + Fresh(s.next, 0) == s.ids;
    } else {
      var n := Next(s, steps[0], describe);
      GrowingIds(n, steps[1..], describe, t);
      GrowingStep(s, steps[0], describe);
      if Adds(steps[0]) {
        FreshCons(s.ids, s.next, CountAdds(steps[1..]));
      }
    }
  }

  lemma GrowingStep(s: State, step: Step, describe: Message -> string)
    requires Enabled(s, step) && Growing([step])
    ensures var n := Next(s, step, describe);
            if Adds(step) then n.next == s.next + 1 && n.ids == s.ids + [s.next] else n.next == s.next && n.ids == s.ids
  {
    assert step == [step][0];
  }

  lemma FreshCons(ids: seq<nat>, from: nat, n: nat)
    ensures ids + [from] + Fresh(from + 1, n) == ids + Fresh(from, n + 1)
  {
  }

  function IdSet(ids: seq<nat>): set<nat> {
    set id | id in ids
  }

  lemma {:induction false} FreshSize(from: nat, n: nat)
    ensures |IdSet(Fresh(from, n))| == n
  {
    if n == 0 {
      assert IdSet(Fresh(from, 0)) == {};
    } else {
      FreshSize(from, n - 1);
      var less := Fresh(from, n - 1);
      assert Fresh(from, n) == less + [from + n - 1];
      assert IdSet(Fresh(from, n)) == IdSet(less) + {from + n - 1};
    }
  }

  /** If nothing leaves the list in between, the loss is every single message appended. */
  lemma GrowingLoss(s: State, k: nat, tailN: nat, steps: seq<Step>, describe: Message -> string, t: State)
    requires Booked(s) && Enabled(s, Look(k, tailN))
    requires Trace(Next(s, Look(k, tailN), describe), steps, describe, t) && Spares(steps, k) && Growing(steps)
    ensures k in t.jobs && |Unseen(t, k)| == CountAdds(steps)
    ensures Unseen(t, k) == IdSet(Fresh(s.next, CountAdds(steps)))
  {
    var s1 := Next(s, Look(k, tailN), describe);
    var drawn := Fresh(s.next, CountAdds(steps));
    assert forall id :: id in s1.jobs[k].taken <==> id in s.ids;
    StepBooked(s, Look(k, tailN), describe);
    TraceBooked(s1, steps, describe, t);
    JobKept(s1, steps, describe, t, k);
    GrowingIds(s1, steps, describe, t);
    assert forall id :: id in s.ids ==> id < s.next;
    UnseenDrawn(t, k, s.ids, drawn);
    FreshSize(s.next, CountAdds(steps));
  }

  lemma UnseenDrawn(t: State, k: nat, was: seq<nat>, drawn: seq<nat>)
    requires Booked(t) && k in t.jobs && t.ids == was + drawn
    requires forall id :: id in was <==> id in t.jobs[k].taken
    requires forall id :: id in drawn ==> id !in was
    ensures Unseen(t, k) == IdSet(drawn)
  {
    UnseenIs(t, k);
    assert forall id :: id in t.ids <==> id in was || id in drawn;
  }

  /** On a list that reads as it did when the compactor looked, whatever happened in
      between, the replacement is the atomic compaction of that list. */
  lemma UntouchedCommit(s: State, k: nat, tailN: nat, steps: seq<Step>, describe: Message -> string, t: State,
                        summary: Message)
    requires Enabled(s, Look(k, tailN))
    requires Trace(Next(s, Look(k, tailN), describe), steps, describe, t) && Spares(steps, k)
    requires Enabled(t, Replace(k, summary)) && t.list == s.list
    ensures Replaced(t, k, summary).list ==
            WithSummary(Head(s.list), summary, s.list[PlanStart(s.list, tailN).value..])
  {
    JobKept(Next(s, Look(k, tailN), describe), steps, describe, t, k);
  }

  /** There are states at which the runs above and below can begin. */
  lemma Compactable(system: Message, summary: Message, said: Message) returns (s: State)
    requires SystemHead(system) && system.calls == [] && !Summary(system) && SummaryRecord(summary)
    requires said == Bare(User, Plain, Absent)
    ensures Inv(s) && Booked(s) && !s.running && s.jobs == map[] && s.list == [system, summary, said, said, said]
    ensures SummaryIndex(s.list) == Some(1) && PlanStart(s.list, 1) == Some(4) && Enabled(s, Look(0, 1))
  {
    var list := [system, summary, said, said, said];
    s := State(list, [0, 1, 2, 3, 4], 5, false, [], map[], None);
    NothingAwaited(list);
    SolosPaired(list[1..]);
    assert list[1..][0] == summary;
    assert list[2..] == [said, said, said];
  }

  /** A turn in which the user says something. */
  lemma TurnTaken(s: State, said: Content, describe: Message -> string) returns (t: State)
    requires !s.running && AtBoundary(s)
    ensures Trace(s, [BeginRun] + [AddUser(said), EndRun], describe, t)
    ensures t == s.(list := s.list + [Bare(User, Plain, said)], ids := s.ids + [s.next], next := s.next + 1)
    ensures Booked(s) ==> Booked(t)
  {
    var s1 := s.(running := true);
    var s2 := Added1(s1, Bare(User, Plain, said));
    t := s2.(running := false);
    OneStep(s, BeginRun, describe, s1);
    TwoSteps(s1, AddUser(said), s2, EndRun, describe, t);
    TraceConcat(s, [BeginRun], s1, [AddUser(said), EndRun], describe, t);
    if Booked(s) {
      StepBooked(s1, AddUser(said), describe);
    }
  }

  /** The guard is not enough: a whole turn between look and replacement passes it, and
      what its user said is gone, wherever a guarded compaction can start. */
  lemma GuardedLoss(s: State, k: nat, tailN: nat, said: Content, summary: Message, describe: Message -> string)
    returns (steps: seq<Step>, t: State)
    requires Booked(s) && !s.running && AtBoundary(s) && SummaryRecord(summary)
    requires Enabled(s, Look(k, tailN)) && SummaryIndex(s.list).Some?
    ensures steps == [Look(k, tailN)] + ([BeginRun] + [AddUser(said), EndRun]) + [Guard(k)]
    ensures Trace(s, steps, describe, t) && !t.running && Enabled(t, Replace(k, summary))
    ensures t.list == s.list + [Bare(User, Plain, said)] && s.next in t.ids
    ensures s.next !in Replaced(t, k, summary).ids
  {
    var s1 := LookBetween(s, k, tailN, describe);
    assert JobIds(s1.jobs[k], s.next);
    var s2 := TurnTaken(s1, said, describe);
    t := GuardPasses(s2, k, describe);
    TraceConcat(s, [Look(k, tailN)], s1, [BeginRun] + [AddUser(said), EndRun], describe, s2);
    steps := [Look(k, tailN)] + ([BeginRun] + [AddUser(said), EndRun]) + [Guard(k)];
    TraceConcat(s, [Look(k, tailN)] + ([BeginRun] + [AddUser(said), EndRun]), s2, [Guard(k)], describe, t);
    assert t.ids[|s.ids|] == s.next;
    ReplacedIds(t, k, summary, s.next);
  }

  // ---------- a compaction over a rollback ----------

  /** A compaction brings back exactly what it kept and the list has given up since. */
  lemma BringsBackIff(s: State, k: nat, summary: Message, id: nat)
    requires Booked(s) && Enabled(s, Replace(k, summary)) && id !in s.ids && id != s.next
    ensures id in Replaced(s, k, summary).ids <==> id in s.jobs[k].tailIds
  {
    ReplacedIds(s, k, summary, id);
    assert s.ids[0] in s.ids;
  }

  lemma PromptRolledBack(before: seq<Message>, prompt: Content, round: Round, keep: nat)
    ensures var final := before + [Bare(User, Plain, prompt)];
            AfterRound(before, final, round, keep) == Cap(before, round.goalId, keep)
    ensures Retained(Added(before, before + [Bare(User, Plain, prompt)]), round) == []
  {
    var m := Bare(User, Plain, prompt);
    assert Added(before, before + [m]) == [m] && [m][1..] == [];
    assert RetainedOne(m, round) == [];
    assert Retained([m], round) == [] + Retained([], round);
    assert before + Retained([m], round) == before;
  }

  lemma PromptGone(v: State, was: Snapshot, prompt: Content, round: Round, keep: nat, describe: Message -> string)
    returns (u: State)
    requires Booked(v) && !v.running && v.snapshot == Some(was)
    requires v.list == was.list + [Bare(User, Plain, prompt)]
    ensures Trace(v, [Rollback(round, keep)], describe, u) && Booked(u)
    ensures u.list == Cap(was.list, round.goalId, keep) && u.ids == was.ids
    ensures u.jobs == v.jobs && u.running == v.running
  {
    PromptRolledBack(was.list, prompt, round, keep);
    u := Next(v, Rollback(round, keep), describe);
    StepBooked(v, Rollback(round, keep), describe);
    OneStep(v, Rollback(round, keep), describe, u);
    assert was.ids + Fresh(v.next, 0) == was.ids;
  }

  lemma LastKept<T>(s: seq<T>, start: nat)
    requires start < |s|
    ensures s[|s| - 1] in s[start..]
  {
    assert s[start..][|s| - 1 - start] == s[|s| - 1];
  }

  lemma LookAtPrompt(s: State, k: nat, tailN: nat, m: Message, id: nat, describe: Message -> string)
    returns (u: State)
    requires Booked(s) && AtBoundary(s) && Enabled(s, Look(k, tailN)) && PlanStart(s.list, tailN).value < |s.list|
    requires SummaryIndex(s.list).Some? && s.list[|s.list| - 1] == m && s.ids[|s.ids| - 1] == id
    ensures Trace(s, [Look(k, tailN)], describe, u) && Booked(u)
    ensures k in u.jobs && u == s.(jobs := u.jobs) && u.jobs[k].guarded
    ensures m in u.jobs[k].tail && id in u.jobs[k].tailIds
  {
    u := Next(s, Look(k, tailN), describe);
    OneStep(s, Look(k, tailN), describe, u);
    StepBooked(s, Look(k, tailN), describe);
    LastKept(s.list, PlanStart(s.list, tailN).value);
    LastKept(s.ids, PlanStart(s.list, tailN).value);
  }

  lemma KeptPrompt(u: State, k: nat, summary: Message, describe: Message -> string, id: nat, m: Message)
    returns (t: State)
    requires Booked(u) && Enabled(u, Guard(k)) && SummaryRecord(summary)
    requires id in u.jobs[k].tailIds && m in u.jobs[k].tail && !m.runtime
    ensures Trace(u, [Guard(k)] + [Replace(k, summary)], describe, t)
    ensures id in t.ids && m in Visible(t.list)
  {
    var v := GuardPasses(u, k, describe);
    t := Next(v, Replace(k, summary), describe);
    OneStep(v, Replace(k, summary), describe, t);
    TraceConcat(u, [Guard(k)], v, [Replace(k, summary)], describe, t);
    ReplacedIds(v, k, summary, id);
    assert t.list == WithSummary(Head(u.list), summary, u.jobs[k].tail);
    VisibleMembers(t.list);
  }

  function RoundSteps(k: nat, tailN: nat, prompt: Content): seq<Step> {
    [BeginRound] + ([BeginRun] + [AddUser(prompt), EndRun]) + [Look(k, tailN)]
  }

  /** A round whose prompt is still in the list when the compactor looks. */
  lemma LookInRound(s: State, k: nat, tailN: nat, prompt: Content, steps: seq<Step>, describe: Message -> string)
    returns (u: State)
    requires Booked(s) && !s.running && AtBoundary(s) && k !in s.jobs && steps == RoundSteps(k, tailN, prompt)
    requires var ms := s.list + [Bare(User, Plain, prompt)];
             SummaryIndex(ms).Some? && PlanStart(ms, tailN).Some? && PlanStart(ms, tailN).value < |ms|
    ensures Trace(s, steps, describe, u)
    ensures Booked(u) && !u.running && AtBoundary(u) && k in u.jobs && u.jobs[k].guarded
    ensures u.list == s.list + [Bare(User, Plain, prompt)] && u.next == s.next + 1
    ensures u.snapshot == Some(Snapshot(s.list, s.ids))
    ensures s.next in u.jobs[k].tailIds && Bare(User, Plain, prompt) in u.jobs[k].tail
  {
    var s1 := s.(snapshot := Some(Snapshot(s.list, s.ids)));
    OneStep(s, BeginRound, describe, s1);
    var s2 := TurnTaken(s1, prompt, describe);
    u := LookAtPrompt(s2, k, tailN, Bare(User, Plain, prompt), s.next, describe);
    TraceConcat(s, [BeginRound], s1, [BeginRun] + [AddUser(prompt), EndRun], describe, s2);
    TraceConcat(s, [BeginRound] + ([BeginRun] + [AddUser(prompt), EndRun]), s2, [Look(k, tailN)], describe, u);
  }

  lemma RolledBackPrompt(s: State, k: nat, tailN: nat, prompt: Content, steps: seq<Step>, round: Round, keep: nat,
                         describe: Message -> string)
    returns (u: State)
    requires Booked(s) && !s.running && AtBoundary(s) && k !in s.jobs && steps == RoundSteps(k, tailN, prompt)
    requires var ms := s.list + [Bare(User, Plain, prompt)];
             SummaryIndex(ms).Some? && PlanStart(ms, tailN).Some? && PlanStart(ms, tailN).value < |ms|
    ensures Trace(s, steps + [Rollback(round, keep)], describe, u)
    ensures Booked(u) && !u.running && k in u.jobs && u.jobs[k].guarded
    ensures u.list == Cap(s.list, round.goalId, keep) && u.ids == s.ids
    ensures s.next in u.jobs[k].tailIds && Bare(User, Plain, prompt) in u.jobs[k].tail
  {
    var v := LookInRound(s, k, tailN, prompt, steps, describe);
    u := PromptGone(v, Snapshot(s.list, s.ids), prompt, round, keep, describe);
    TraceConcat(s, steps, v, [Rollback(round, keep)], describe, u);
  }

  /** The compaction that the end of a Plan/Goal round sets off can look before the
      dispatcher rolls the round back and replace after it: the round's hidden prompt is
      then visible in the transcript. */
  lemma RollbackUndone(s: State, k: nat, tailN: nat, prompt: Content, steps: seq<Step>, round: Round, keep: nat,
                       summary: Message, describe: Message -> string)
    returns (u: State, t: State)
    requires Booked(s) && !s.running && AtBoundary(s) && k !in s.jobs && SummaryRecord(summary)
    requires steps == RoundSteps(k, tailN, prompt)
    requires var ms := s.list + [Bare(User, Plain, prompt)];
             SummaryIndex(ms).Some? && PlanStart(ms, tailN).Some? && PlanStart(ms, tailN).value < |ms|
    ensures Trace(s, steps + [Rollback(round, keep)], describe, u)
    ensures u.list == Cap(s.list, round.goalId, keep) && u.ids == s.ids
    ensures Trace(u, [Guard(k)] + [Replace(k, summary)], describe, t)
    ensures s.next in t.ids && Bare(User, Plain, prompt) in Visible(t.list)
  {
    u := RolledBackPrompt(s, k, tailN, prompt, steps, round, keep, describe);
    t := KeptPrompt(u, k, summary, describe, s.next, Bare(User, Plain, prompt));
  }

  // ---------- the steps themselves ----------

  /** Where a compactor cuts a list without an old summary, and whether it finds anything to
      do: as the full compaction does. */
  lemma FullPlanIs(ms: seq<Message>, tailN: nat)
    requires SummaryIndex(ms).None?
    ensures PlanStart(ms, tailN).Some? <==> FullTail(ms, tailN).Some?
    ensures PlanStart(ms, tailN).Some? ==> FullTail(ms, tailN) == Some(ms[PlanStart(ms, tailN).value..])
  {
  }

  /** Each step of a run puts its message, under a new id, behind the list. */
  lemma AppendsAre(s: State, content: Content, ids: seq<string>, describe: Message -> string)
    requires s.running
    ensures s.open == [] ==>
      && Enabled(s, AddUser(content)) && Enabled(s, AddAnswer(content)) && Enabled(s, AddCalls(ids))
      && Next(s, AddUser(content), describe) == Added1(s, Bare(User, Plain, content))
      && Next(s, AddAnswer(content), describe) == Added1(s, Bare(Assistant, Final, content))
      && Next(s, AddCalls(ids), describe) == Added1(s, Bare(Assistant, ToolCalls, Absent).(calls := ids)).(open := ids)
    ensures s.open != [] ==>
      && Enabled(s, AddResult(content))
      && Next(s, AddResult(content), describe) ==
           Added1(s, Bare(Tool, ToolResult, content).(callId := s.open[0])).(open := s.open[1..])
    ensures forall m :: Added1(s, m) == s.(list := s.list + [m], ids := s.ids + [s.next], next := s.next + 1)
  {
  }

  /** Eviction may cut wherever no result is separated, down to the first message alone; a
      light pass rewrites the list and touches no job. */
  lemma RewritesAre(s: State, cut: nat, mode: Mode, describe: Message -> string)
    requires s.running && s.open == [] && |s.list| == |s.ids|
    ensures Enabled(s, EvictTo(cut)) <==> 1 <= cut <= |s.list| && (cut < |s.list| ==> !VisibleTool(s.list[cut]))
    ensures Enabled(s, EvictTo(cut)) ==>
      Next(s, EvictTo(cut), describe) == s.(list := [s.list[0]] + s.list[cut..], ids := [s.ids[0]] + s.ids[cut..])
    ensures Enabled(s, LightPass(mode)) &&
            Next(s, LightPass(mode), describe) == s.(list := Light(s.list, mode, describe))
  {
  }

  /** A job ends with its replacement or when it is given up, and not otherwise; a rollback
      uses its snapshot up. */
  lemma EndsAre(s: State, step: Step, k: nat, describe: Message -> string)
    requires Enabled(s, step) && k in s.jobs
    ensures k in Next(s, step, describe).jobs <==>
            !((step.Replace? && step.k == k) || (step.GiveUp? && step.k == k))
    ensures step.Rollback? ==>
      && Next(s, step, describe).snapshot.None?
      && Next(s, step, describe).list == AfterRound(s.snapshot.value.list, s.list, step.round, step.keep)
    ensures step.BeginRound? ==> Next(s, step, describe).snapshot == Some(Snapshot(s.list, s.ids))
  {
  }
}
