/** Exclusive execution of a session's agent and the isolation of runs that outlive their
    time limit: `_execute_agent`, `_await_agent_future`, `_quarantine_after_timeout`,
    `retire_agent` and `_run_is_retired` (gateway/dispatcher.py).  Coroutines are cut at
    their awaits; a worker is one call of `agent.run` in the thread pool. */
module Execution {
  import opened Text

  type Session = nat
  type Agent = nat
  type Worker = nat
  type RunId = nat
  type Thread = nat   // executor and tool threads that call the event sink

  /** What the coroutine holding the session's lock is doing. */
  datatype Phase = Idle | Entered(managed: bool) | Awaiting(worker: Worker, managed: bool)

  datatype Entry = Entry(agent: Option<Agent>, phase: Phase)

  /** `Started` lasts until `agent.run` has drawn a run id. */
  datatype Progress = Queued | Started | Running(run: RunId) | Finished

  datatype Job = Job(agent: Agent, progress: Progress, dropped: bool)

  datatype Event = Event(worker: Worker, run: RunId)

  datatype State = State(
    entries: map<Session, Entry>,
    agents: nat,                    // agents created so far
    workers: seq<Job>,
    runIds: map<Agent, RunId>,      // the `_run_id` of each agent
    runs: nat,                      // run ids drawn so far
    retired: set<RunId>,
    cap: nat,
    flying: map<Thread, Event>,     // events between the sink's check and their delivery
    bridge: seq<Event>)             // events that reached the conversation

  datatype Step =
    | Enter(s: Session, managed: bool)     // takes the lock, or is told that the session is busy
    | Create(s: Session)
    | Leave(s: Session)                    // a command's reply, a failed or cancelled creation
    | Submit(s: Session)
    | Begin(w: Worker)
    | Draw(w: Worker)
    | Check(w: Worker, th: Thread)         // the sink asks whether the run is retired
    | Deliver(th: Thread)                  // and then hands the event on
    | Finish(w: Worker)
    | Drop(w: Worker)                      // a cancelled job that was still queued
    | Return(s: Session)
    | HardTimeout(s: Session)              // unmanaged: the dispatcher's own limit
    | CancelManaged(s: Session)            // the runtime cancels a managed wait
    | CancelUnmanaged(s: Session, late: bool)   // so is an unmanaged one, `late` in the wait past the soft limit

  function Fresh(sessions: set<Session>, cap: nat): State {
    State(map s | s in sessions :: Entry(None, Idle), 0, [], map[], 0, {}, cap, map[], [])
  }

  predicate Live(p: Progress) {
    !p.Finished?
  }

  predicate Held(st: State, s: Session) {
    s in st.entries && st.entries[s].phase.Awaiting? && st.entries[s].phase.worker < |st.workers|
  }

  predicate Enabled(st: State, step: Step) {
    match step
    case Enter(s, _) => s in st.entries
    case Create(s) => s in st.entries && st.entries[s].phase.Entered? && st.entries[s].agent.None?
    case Leave(s) => s in st.entries && st.entries[s].phase.Entered?
    case Submit(s) => s in st.entries && st.entries[s].phase.Entered? && st.entries[s].agent.Some?
    case Begin(w) => w < |st.workers| && st.workers[w].progress.Queued?
    case Draw(w) => w < |st.workers| && st.workers[w].progress.Started?
    case Check(w, th) =>
      w < |st.workers| && st.workers[w].progress.Running? && st.workers[w].agent in st.runIds && th !in st.flying
    case Deliver(th) => th in st.flying
    case Finish(w) => w < |st.workers| && (st.workers[w].progress.Started? || st.workers[w].progress.Running?)
    case Drop(w) => w < |st.workers| && st.workers[w].progress.Queued? && st.workers[w].dropped
    case Return(s) => Held(st, s) && !Live(st.workers[st.entries[s].phase.worker].progress)
    case HardTimeout(s) => Held(st, s) && !st.entries[s].phase.managed
    case CancelManaged(s) => Held(st, s) && st.entries[s].phase.managed
    case CancelUnmanaged(s, _) => Held(st, s) && !st.entries[s].phase.managed
  }

  function Stepped(st: State, w: Worker, p: Progress): State
    requires w < |st.workers|
  {
    st.(workers := st.workers[w := st.workers[w].(progress := p)])
  }

  /** Registering a run as retired; an overfull register is emptied first. */
  function Retired(st: State, a: Agent): State {
    if a !in st.runIds then st
    else st.(retired := (if |st.retired| >= st.cap then {} else st.retired) + {st.runIds[a]})
  }

  /** Detach the agent from the session and give up the lock. */
  function Quarantined(st: State, s: Session): State
    requires Held(st, s)
  {
    var a := st.workers[st.entries[s].phase.worker].agent;
    Retired(st.(entries := st.entries[s := Entry(None, Idle)]), a)
  }

  function Next(st: State, step: Step): State
    requires Enabled(st, step)
  {
    match step
    case Enter(s, managed) =>
      if st.entries[s].phase.Idle? then st.(entries := st.entries[s := st.entries[s].(phase := Entered(managed))])
      else st
    case Create(s) =>
      st.(entries := st.entries[s := st.entries[s].(agent := Some(st.agents))], agents := st.agents + 1)
    case Leave(s) => st.(entries := st.entries[s := st.entries[s].(phase := Idle)])
    case Submit(s) =>
      st.(entries := st.entries[s := st.entries[s].(phase := Awaiting(|st.workers|, st.entries[s].phase.managed))],
          workers := st.workers + [Job(st.entries[s].agent.value, Queued, false)])
    case Begin(w) => Stepped(st, w, Started)
    case Draw(w) =>
      Stepped(st, w, Running(st.runs)).(runIds := st.runIds[st.workers[w].agent := st.runs], runs := st.runs + 1)
    case Check(w, th) =>
      if st.runIds[st.workers[w].agent] in st.retired then st
      else st.(flying := st.flying[th := Event(w, st.workers[w].progress.run)])
    case Deliver(th) => st.(bridge := st.bridge + [st.flying[th]], flying := st.flying - {th})
    case Finish(w) => Stepped(st, w, Finished)
    case Drop(w) => Stepped(st, w, Finished)
    case Return(s) => st.(entries := st.entries[s := st.entries[s].(phase := Idle)])
    case HardTimeout(s) =>
      var w := st.entries[s].phase.worker;
      Quarantined(st, s).(workers := st.workers[w := st.workers[w].(dropped := true)])
    case CancelManaged(s) => Quarantined(st, s)
    case CancelUnmanaged(s, late) =>
      var w, t := st.entries[s].phase.worker, st.(entries := st.entries[s := st.entries[s].(phase := Idle)]);
      if late && st.workers[w].progress.Queued? then Stepped(t, w, Finished) else t
  }

  // ---------- the code ----------

  /** The dispatcher's own tables; workers and events are the ghost record of the threads. */
  class Dispatcher {
    var entries: map<Session, Entry>
    var runIds: map<Agent, RunId>
    var retired: set<RunId>
    const cap: nat
    var agents: nat
    ghost var workers: seq<Job>
    ghost var runs: nat
    ghost var flying: map<Thread, Event>
    ghost var bridge: seq<Event>

    ghost function Abs(): State
      reads this
    {
      State(entries, agents, workers, runIds, runs, retired, cap, flying, bridge)
    }

    constructor (ghost sessions: set<Session>, known: map<Session, Entry>, cap: nat)
      requires known == map s | s in sessions :: Entry(None, Idle)
      ensures Abs() == Fresh(sessions, cap)
    {
      entries, runIds, retired, this.cap, agents := known, map[], {}, cap, 0;
      workers, runs, flying, bridge := [], 0, map[], [];
    }

    /** The try-lock of `_execute_agent`. */
    method TryEnter(s: Session, managed: bool) returns (entered: bool)
      requires s in entries
      modifies this
      ensures Abs() == Next(old(Abs()), Enter(s, managed))
      ensures entered <==> old(entries)[s].phase.Idle?
    {
      if !entries[s].phase.Idle? {
        return false;
      }
      entries := entries[s := entries[s].(phase := Entered(managed))];
      entered := true;
    }

    method RetireAgent(a: Agent) returns (run: Option<RunId>)
      modifies this
      ensures Abs() == Retired(old(Abs()), a)
      ensures run == if a in old(runIds) then Some(old(runIds)[a]) else None
    {
      if a !in runIds {
        return None;
      }
      run := Some(runIds[a]);
      if |retired| >= cap {
        retired := {};
      }
      retired := retired + {run.value};
    }

    method RunIsRetired(a: Agent) returns (r: bool)
      ensures r <==> a in runIds && runIds[a] in retired
    {
      r := a in runIds && runIds[a] in retired;
    }

    /** The session forgets the agent before its run is retired. */
    method QuarantineAfterTimeout(s: Session, agent: Agent)
      requires Held(Abs(), s) && agent == workers[entries[s].phase.worker].agent
      modifies this
      ensures Abs() == Quarantined(old(Abs()), s)
    {
      entries := entries[s := Entry(None, Idle)];
      var run := RetireAgent(agent);
    }

    /** The event sink up to its check. */
    method SinkCheck(ghost w: Worker, ghost th: Thread, agent: Agent) returns (pass: bool)
      requires Enabled(Abs(), Check(w, th)) && agent == workers[w].agent
      modifies this
      ensures Abs() == Next(old(Abs()), Check(w, th))
      ensures pass <==> th in flying
    {
      var gone := RunIsRetired(agent);
      if gone {
        return false;
      }
      flying := flying[th := Event(w, workers[w].progress.run)];
      pass := true;
    }

    /** What it does with an event that passed. */
    method SinkDeliver(ghost th: Thread)
      requires Enabled(Abs(), Deliver(th))
      modifies this
      ensures Abs() == Next(old(Abs()), Deliver(th))
    {
      bridge := bridge + [flying[th]];
      flying := flying - {th};
    }
  }

  // ---------- exclusive use of agents ----------

  predicate Busy(st: State, w: Worker) {
    w < |st.workers| && Live(st.workers[w].progress)
  }

  /** No two workers run, or are about to run, the same agent. */
  ghost predicate Exclusive(st: State) {
    forall v: Worker, w: Worker :: Busy(st, v) && Busy(st, w) && st.workers[v].agent == st.workers[w].agent ==> v == w
  }

  /** The worker's agent belongs to the session that waits for it, or to no session. */
  ghost predicate Owned(st: State, w: Worker)
    requires w < |st.workers|
  {
    forall s :: s in st.entries && st.entries[s].agent == Some(st.workers[w].agent) ==>
      st.entries[s].phase.Awaiting? && st.entries[s].phase.worker == w
  }

  ghost predicate Inv(st: State) {
    && Exclusive(st)
    && (forall w: Worker :: Busy(st, w) ==> Owned(st, w))
    && (forall s :: s in st.entries && st.entries[s].phase.Awaiting? ==>
          Held(st, s) && st.entries[s].agent == Some(st.workers[st.entries[s].phase.worker].agent))
    && (forall s, t | s in st.entries && t in st.entries && st.entries[s].agent.Some? ::
          st.entries[s].agent == st.entries[t].agent ==> s == t)
    && (forall s :: s in st.entries && st.entries[s].agent.Some? ==> st.entries[s].agent.value < st.agents)
    && (forall w :: 0 <= w < |st.workers| ==> st.workers[w].agent < st.agents)
  }

  lemma FreshInv(sessions: set<Session>, cap: nat)
    ensures Inv(Fresh(sessions, cap))
  {
  }

  lemma SubmitInv(st: State, s: Session)
    requires Inv(st) && Enabled(st, Submit(s))
    ensures Inv(Next(st, Submit(s)))
  {
    var t, a, n := Next(st, Submit(s)), st.entries[s].agent.value, |st.workers|;
    forall w: Worker | Busy(st, w) ensures st.workers[w].agent != a {
      assert Owned(st, w);
    }
    forall w: Worker | Busy(t, w) ensures Owned(t, w) {
      assert w < n ==> Busy(st, w) && Owned(st, w);
    }
    forall v: Worker, w: Worker | Busy(t, v) && Busy(t, w) && t.workers[v].agent == t.workers[w].agent ensures v == w {
      assert v < n ==> Busy(st, v);
      assert w < n ==> Busy(st, w);
    }
  }

  lemma CreateInv(st: State, s: Session)
    requires Inv(st) && Enabled(st, Create(s))
    ensures Inv(Next(st, Create(s)))
  {
    var t := Next(st, Create(s));
    forall w: Worker | Busy(t, w) ensures Owned(t, w) {
      assert Busy(st, w) && Owned(st, w);
    }
    forall v: Worker, w: Worker | Busy(t, v) && Busy(t, w) && t.workers[v].agent == t.workers[w].agent ensures v == w {
      assert Busy(st, v) && Busy(st, w);
    }
  }

  /** A worker that moves on keeps its agent, and nobody wakes up. */
  lemma ProgressInv(st: State, t: State)
    requires Inv(st) && t.entries == st.entries && t.agents == st.agents && |t.workers| == |st.workers|
    requires forall w | 0 <= w < |st.workers| ::
      && t.workers[w].agent == st.workers[w].agent
      && (Live(st.workers[w].progress) || !Live(t.workers[w].progress))
    ensures Inv(t)
  {
    forall w: Worker | Busy(t, w) ensures Owned(t, w) {
      assert Busy(st, w) && Owned(st, w);
    }
    forall v: Worker, w: Worker | Busy(t, v) && Busy(t, w) && t.workers[v].agent == t.workers[w].agent ensures v == w {
      assert Busy(st, v) && Busy(st, w);
    }
  }

  /** A session that changes its phase, or forgets its agent, while no live worker is lost
      track of. */
  lemma EntryInv(st: State, t: State, s: Session, e: Entry)
    requires Inv(st) && s in st.entries && t == st.(entries := st.entries[s := e])
    requires !e.phase.Awaiting? && (e.agent.None? || e.agent == st.entries[s].agent)
    requires e.agent.Some? ==> forall w: Worker :: Busy(st, w) ==> st.workers[w].agent != e.agent.value
    ensures Inv(t)
  {
    forall w: Worker | Busy(t, w) ensures Owned(t, w) {
      assert Busy(st, w) && Owned(st, w);
    }
    forall v: Worker, w: Worker | Busy(t, v) && Busy(t, w) && t.workers[v].agent == t.workers[w].agent ensures v == w {
      assert Busy(st, v) && Busy(st, w);
    }
  }

  /** With nobody waiting for it, or with the wait over, an agent has no live worker. */
  lemma Unused(st: State, s: Session)
    requires Inv(st) && s in st.entries && st.entries[s].agent.Some?
    requires st.entries[s].phase.Awaiting? ==> !Busy(st, st.entries[s].phase.worker)
    ensures forall w: Worker :: Busy(st, w) ==> st.workers[w].agent != st.entries[s].agent.value
  {
    forall w: Worker | Busy(st, w) ensures st.workers[w].agent != st.entries[s].agent.value {
      assert Owned(st, w);
    }
  }

  lemma QuarantinedInv(st: State, s: Session)
    requires Inv(st) && Held(st, s)
    ensures Inv(Quarantined(st, s))
  {
    var t := st.(entries := st.entries[s := Entry(None, Idle)]);
    EntryInv(st, t, s, Entry(None, Idle));
    ProgressInv(t, Quarantined(st, s));
  }

  /** Cancelling an unmanaged wait gives up the lock and keeps the agent.  Only the wait past
      the soft limit is not shielded, and takes a job that is still queued back out. */
  predicate LeavesWorker(st: State, s: Session, late: bool)
    requires Held(st, s)
  {
    var w := st.entries[s].phase.worker;
    Busy(st, w) && !(late && st.workers[w].progress.Queued?)
  }

  /** That is harmless exactly when no worker is left behind. */
  lemma UnmanagedCancelIff(st: State, s: Session, late: bool)
    requires Inv(st) && Enabled(st, CancelUnmanaged(s, late))
    ensures Inv(Next(st, CancelUnmanaged(s, late))) <==> !LeavesWorker(st, s, late)
  {
    var t, w := Next(st, CancelUnmanaged(s, late)), st.entries[s].phase.worker;
    if LeavesWorker(st, s, late) {
      assert Busy(t, w);
      assert t.entries[s].agent == Some(t.workers[w].agent) && t.entries[s].phase.Idle?;
      assert !Owned(t, w);
    } else {
      var done := Stepped(st, w, Finished);
      ProgressInv(st, done);
      Unused(done, s);
      EntryInv(done, done.(entries := t.entries), s, st.entries[s].(phase := Idle));
      if !Busy(st, w) {
        Unused(st, s);
        EntryInv(st, t, s, st.entries[s].(phase := Idle));
      }
    }
  }

  predicate Harmless(st: State, step: Step)
    requires Enabled(st, step)
  {
    step.CancelUnmanaged? ==> !LeavesWorker(st, step.s, step.late)
  }

  lemma StepInv(st: State, step: Step)
    requires Inv(st) && Enabled(st, step) && Harmless(st, step)
    ensures Inv(Next(st, step))
  {
    var t := Next(st, step);
    match step {
      case Enter(s, managed) =>
        if st.entries[s].phase.Idle? {
          if st.entries[s].agent.Some? {
            Unused(st, s);
          }
          EntryInv(st, t, s, st.entries[s].(phase := Entered(managed)));
        }
      case Create(s) => CreateInv(st, s);
      case Submit(s) => SubmitInv(st, s);
      case Return(s) =>
        Unused(st, s);
        EntryInv(st, t, s, st.entries[s].(phase := Idle));
      case Leave(s) =>
        if st.entries[s].agent.Some? {
          Unused(st, s);
        }
        EntryInv(st, t, s, st.entries[s].(phase := Idle));
      case HardTimeout(s) =>
        QuarantinedInv(st, s);
        ProgressInv(Quarantined(st, s), t);
      case CancelManaged(s) => QuarantinedInv(st, s);
      case CancelUnmanaged(s, late) => UnmanagedCancelIff(st, s, late);
      case _ => ProgressInv(st, t);
    }
  }

  predicate Trace(st: State, steps: seq<Step>, t: State)
    decreases |steps|
  {
    if steps == [] then st == t else Enabled(st, steps[0]) && Trace(Next(st, steps[0]), steps[1..], t)
  }

  /** No cancellation of an unmanaged wait leaves a worker behind. */
  predicate Orderly(st: State, steps: seq<Step>)
    decreases |steps|
  {
    steps != [] ==> Enabled(st, steps[0]) && Harmless(st, steps[0]) && Orderly(Next(st, steps[0]), steps[1..])
  }

  ghost predicate InvThroughout(st: State, steps: seq<Step>)
    decreases |steps|
  {
    Inv(st) && (steps != [] && Enabled(st, steps[0]) ==> InvThroughout(Next(st, steps[0]), steps[1..]))
  }

  lemma {:induction false} TraceInv(st: State, steps: seq<Step>, t: State)
    requires Inv(st) && Trace(st, steps, t) && Orderly(st, steps)
    ensures Inv(t)
    decreases |steps|
  {
    if steps != [] {
      StepInv(st, steps[0]);
      TraceInv(Next(st, steps[0]), steps[1..], t);
    }
  }

  /** Over all interleavings of any number of sessions, hard timeouts and cancellations by
      the runtime included, no two workers run the same agent, as long as no other
      cancellation leaves a worker behind. */
  lemma NeverShared(sessions: set<Session>, cap: nat, steps: seq<Step>, t: State)
    requires Trace(Fresh(sessions, cap), steps, t) && Orderly(Fresh(sessions, cap), steps)
    ensures Exclusive(t)
  {
    FreshInv(sessions, cap);
    TraceInv(Fresh(sessions, cap), steps, t);
  }

  /** And the whole invariant holds throughout a run exactly when none does. */
  lemma {:induction false} OrderlyIff(st: State, steps: seq<Step>, t: State)
    requires Inv(st) && Trace(st, steps, t)
    ensures InvThroughout(st, steps) <==> Orderly(st, steps)
    decreases |steps|
  {
    if steps != [] {
      var n := Next(st, steps[0]);
      if Harmless(st, steps[0]) {
        StepInv(st, steps[0]);
        OrderlyIff(n, steps[1..], t);
      } else {
        UnmanagedCancelIff(st, steps[0].s, steps[0].late);
        assert !InvThroughout(n, steps[1..]);
      }
    }
  }

  /** From a cancellation that leaves a worker behind, the next message starts a second one
      on the agent. */
  lemma SharedAfterCancel(st: State, s: Session, late: bool, managed: bool) returns (steps: seq<Step>, t: State)
    requires Inv(st) && Enabled(st, CancelUnmanaged(s, late)) && LeavesWorker(st, s, late)
    ensures Trace(st, steps, t) && !Exclusive(t)
  {
    var w, n := st.entries[s].phase.worker, |st.workers|;
    var s1 := Next(st, CancelUnmanaged(s, late));
    var s2 := Next(s1, Enter(s, managed));
    t := Next(s2, Submit(s));
    steps := [CancelUnmanaged(s, late), Enter(s, managed), Submit(s)];
    var last, two := [Submit(s)], [Enter(s, managed), Submit(s)];
    assert last[1..] == [] && two[1..] == last && steps[1..] == two;
    assert Trace(t, [], t);
    assert Trace(s2, last, t);
    assert Trace(s1, two, t);
    assert Busy(t, w) && Busy(t, n) && t.workers[w].agent == t.workers[n].agent;
  }

  // ---------- events of retired runs ----------

  /** Where runs come from: run ids are drawn once, and a running worker's agent carries
      the id of that very run. */
  ghost predicate RunInv(st: State) {
    && (forall a :: a in st.runIds ==> st.runIds[a] < st.runs && a < st.agents)
    && (forall a, b :: a in st.runIds && b in st.runIds && st.runIds[a] == st.runIds[b] ==> a == b)
    && (forall w :: 0 <= w < |st.workers| && st.workers[w].progress.Running? ==>
          st.workers[w].agent in st.runIds && st.runIds[st.workers[w].agent] == st.workers[w].progress.run)
    && (forall r :: r in st.retired ==> r < st.runs)
  }

  lemma DrawRunInv(st: State, w: Worker)
    requires Inv(st) && RunInv(st) && Enabled(st, Draw(w))
    ensures RunInv(Next(st, Draw(w)))
  {
    var t := Next(st, Draw(w));
    forall v: Worker | v < |t.workers| && t.workers[v].progress.Running?
      ensures t.workers[v].agent in t.runIds && t.runIds[t.workers[v].agent] == t.workers[v].progress.run
    {
      if v != w {
        assert Busy(st, v) && Busy(st, w);
      }
    }
  }

  lemma StepRunInv(st: State, step: Step)
    requires Inv(st) && RunInv(st) && Enabled(st, step)
    ensures RunInv(Next(st, step))
  {
    if step.Draw? {
      DrawRunInv(st, step.w);
    } else {
      SameRuns(st, step);
      SameWorkers(st, step);
      QuietRunInv(st, Next(st, step));
    }
  }

  lemma SameRuns(st: State, step: Step)
    requires RunInv(st) && Enabled(st, step) && !step.Draw?
    ensures var t := Next(st, step);
            && t.runIds == st.runIds && t.runs == st.runs && t.agents >= st.agents
            && (forall r :: r in t.retired ==> r < st.runs)
  {
  }

  lemma SameWorkers(st: State, step: Step)
    requires Enabled(st, step) && !step.Draw?
    ensures var t := Next(st, step);
            forall w: Worker :: w < |t.workers| && t.workers[w].progress.Running? ==>
              w < |st.workers| && st.workers[w].agent == t.workers[w].agent &&
              st.workers[w].progress == t.workers[w].progress
  {
  }

  /** No run id is drawn, and no worker starts to run. */
  lemma QuietRunInv(st: State, t: State)
    requires RunInv(st) && t.runIds == st.runIds && t.runs == st.runs && t.agents >= st.agents
    requires forall r :: r in t.retired ==> r < st.runs
    requires forall w: Worker :: w < |t.workers| && t.workers[w].progress.Running? ==>
      w < |st.workers| && st.workers[w].agent == t.workers[w].agent && st.workers[w].progress == t.workers[w].progress
    ensures RunInv(t)
  {
  }

  lemma {:induction false} TraceRunInv(st: State, steps: seq<Step>, t: State)
    requires Inv(st) && RunInv(st) && Trace(st, steps, t) && Orderly(st, steps)
    ensures Inv(t) && RunInv(t)
    decreases |steps|
  {
    if steps != [] {
      StepInv(st, steps[0]);
      StepRunInv(st, steps[0]);
      TraceRunInv(Next(st, steps[0]), steps[1..], t);
    }
  }

  /** A run whose agent belongs to no session any more. */
  ghost predicate Detached(st: State, w: Worker)
    requires w < |st.workers|
  {
    forall s :: s in st.entries ==> st.entries[s].agent != Some(st.workers[w].agent)
  }

  /** The worker is out of the session, and no event of its run can pass. */
  ghost predicate Silenced(st: State, w: Worker, r: RunId) {
    && w < |st.workers| && Detached(st, w) && st.workers[w].agent < st.agents
    && (st.workers[w].progress == Running(r) || st.workers[w].progress.Finished?)
    && r in st.retired && r < st.runs
  }

  /** Quarantine silences a run that has its id. */
  lemma QuarantineSilences(st: State, step: Step)
    requires Inv(st) && RunInv(st) && Enabled(st, step) && (step.HardTimeout? || step.CancelManaged?)
    requires st.workers[st.entries[step.s].phase.worker].progress.Running?
    ensures var w := st.entries[step.s].phase.worker;
            Silenced(Next(st, step), w, st.workers[w].progress.run)
  {
    var w := st.entries[step.s].phase.worker;
    var t := Next(st, step);
    forall s | s in t.entries ensures t.entries[s].agent != Some(t.workers[w].agent) {
    }
  }

  /** The register is not emptied by this step. */
  predicate Remembers(st: State, step: Step)
    requires Enabled(st, step)
  {
    step.HardTimeout? || step.CancelManaged? ==> |st.retired| < st.cap
  }

  predicate RememberingTrace(st: State, steps: seq<Step>)
    decreases |steps|
  {
    steps != [] ==>
      Enabled(st, steps[0]) && Remembers(st, steps[0]) && RememberingTrace(Next(st, steps[0]), steps[1..])
  }

  /** Threads with an event of worker w that has passed the check and not arrived. */
  function Flights(st: State, w: Worker): set<Thread> {
    set th | th in st.flying && st.flying[th].worker == w
  }

  function EventsOf(bridge: seq<Event>, w: Worker): nat {
    if bridge == [] then 0 else (if bridge[0].worker == w then 1 else 0) + EventsOf(bridge[1..], w)
  }

  lemma {:induction false} EventsConcat(a: seq<Event>, b: seq<Event>, w: Worker)
    ensures EventsOf(a + b, w) == EventsOf(a, w) + EventsOf(b, w)
  {
    if a == [] {
      assert a + b == b;
    } else {
      assert (a + b)[1..] == a[1..] + b;
      EventsConcat(a[1..], b, w);
    }
  }

  lemma StepSilenced(st: State, step: Step, w: Worker, r: RunId)
    requires Inv(st) && RunInv(st) && Enabled(st, step) && Remembers(st, step) && Silenced(st, w, r)
    ensures Silenced(Next(st, step), w, r)
  {
    StepDetached(st, step, w);
    StepRetired(st, step, r);
  }

  lemma StepDetached(st: State, step: Step, w: Worker)
    requires Enabled(st, step) && w < |st.workers| && Detached(st, w) && st.workers[w].agent < st.agents
    ensures var t := Next(st, step);
            w < |t.workers| && t.workers[w].agent == st.workers[w].agent && Detached(t, w)
  {
    var t := Next(st, step);
    if step.Create? {
      forall s | s in t.entries ensures t.entries[s].agent != Some(t.workers[w].agent) {}
    }
  }

  lemma StepRetired(st: State, step: Step, r: RunId)
    requires Enabled(st, step) && Remembers(st, step) && r in st.retired && r < st.runs
    ensures r in Next(st, step).retired && r < Next(st, step).runs && st.agents <= Next(st, step).agents
  {
  }

  lemma StepFlights(st: State, step: Step, w: Worker, r: RunId)
    requires RunInv(st) && Enabled(st, step) && Silenced(st, w, r) && !step.Deliver?
    ensures Next(st, step).bridge == st.bridge && Flights(Next(st, step), w) == Flights(st, w)
  {
    if step.Check? && step.w == w {
      assert st.runIds[st.workers[w].agent] == r;
    }
  }

  lemma DeliverCounts(st: State, th: Thread, w: Worker)
    requires Enabled(st, Deliver(th))
    ensures var t := Next(st, Deliver(th));
            && Flights(t, w) == Flights(st, w) - {th}
            && EventsOf([st.flying[th]], w) + |Flights(t, w)| == |Flights(st, w)|
  {
    var t := Next(st, Deliver(th));
    assert Flights(t, w) == Flights(st, w) - {th};
    assert [st.flying[th]][1..] == [];
  }

  /** The new events of a step. */
  lemma StepCounts(st: State, step: Step, w: Worker, r: RunId)
    requires RunInv(st) && Enabled(st, step) && Silenced(st, w, r)
    ensures var t := Next(st, step);
            && st.bridge <= t.bridge && Flights(t, w) <= Flights(st, w)
            && EventsOf(t.bridge[|st.bridge|..], w) + |Flights(t, w)| == |Flights(st, w)|
  {
    var t := Next(st, step);
    if step.Deliver? {
      DeliverCounts(st, step.th, w);
      assert t.bridge[|st.bridge|..] == [st.flying[step.th]];
    } else {
      StepFlights(st, step, w, r);
      assert t.bridge[|st.bridge|..] == [];
    }
  }

  /** Once silenced, a run has no event let through any more, in any continuation, as long
      as the register of retired runs has not been emptied at its cap.  What still reaches
      the conversation is exactly what had passed the check before, one event for each
      thread that was then on its way. */
  lemma {:induction false} SilentForever(st: State, steps: seq<Step>, t: State, w: Worker, r: RunId)
    requires Inv(st) && RunInv(st) && Silenced(st, w, r)
    requires Trace(st, steps, t) && RememberingTrace(st, steps) && Orderly(st, steps)
    ensures Silenced(t, w, r)
    ensures st.bridge <= t.bridge && Flights(t, w) <= Flights(st, w)
    ensures EventsOf(t.bridge[|st.bridge|..], w) == |Flights(st, w)| - |Flights(t, w)|
    decreases |steps|
  {
    if steps == [] {
      assert t.bridge[|st.bridge|..] == [];
    } else {
      var u := Next(st, steps[0]);
      StepInv(st, steps[0]);
      StepRunInv(st, steps[0]);
      StepSilenced(st, steps[0], w, r);
      StepCounts(st, steps[0], w, r);
      SilentForever(u, steps[1..], t, w, r);
      NewEvents(st.bridge, u.bridge, t.bridge, w);
    }
  }

  lemma NewEvents(a: seq<Event>, b: seq<Event>, c: seq<Event>, w: Worker)
    requires a <= b <= c
    ensures EventsOf(c[|a|..], w) == EventsOf(b[|a|..], w) + EventsOf(c[|b|..], w)
  {
    assert c[|a|..] == b[|a|..] + c[|b|..];
    EventsConcat(b[|a|..], c[|b|..], w);
  }

  lemma Reachable(sessions: set<Session>, cap: nat, steps: seq<Step>, st: State)
    requires Trace(Fresh(sessions, cap), steps, st) && Orderly(Fresh(sessions, cap), steps)
    ensures Inv(st) && RunInv(st)
  {
    FreshInv(sessions, cap);
    assert RunInv(Fresh(sessions, cap));
    TraceRunInv(Fresh(sessions, cap), steps, st);
  }

  lemma QuarantineBridge(st: State, step: Step)
    requires Enabled(st, step) && (step.HardTimeout? || step.CancelManaged?)
    ensures Next(st, step).bridge == st.bridge && Next(st, step).flying == st.flying
  {
  }

  /** In any run of the dispatcher: once a run with its id drawn has been quarantined, the
      events of that worker that still reach the conversation are those whose check came
      before the quarantine, at most one for each thread. */
  lemma QuarantinedRunSilent(sessions: set<Session>, cap: nat, before: seq<Step>, st: State, step: Step,
                             after: seq<Step>, t: State)
    requires Trace(Fresh(sessions, cap), before, st) && Enabled(st, step)
    requires step.HardTimeout? || step.CancelManaged?
    requires st.workers[st.entries[step.s].phase.worker].progress.Running?
    requires Trace(Next(st, step), after, t) && RememberingTrace(Next(st, step), after)
    requires Orderly(Fresh(sessions, cap), before) && Orderly(Next(st, step), after)
    ensures var w := st.entries[step.s].phase.worker;
            && st.bridge <= t.bridge && Flights(t, w) <= Flights(st, w)
            && EventsOf(t.bridge[|st.bridge|..], w) == |Flights(st, w)| - |Flights(t, w)|
  {
    Reachable(sessions, cap, before, st);
    SilentAfter(st, step, after, t);
  }

  lemma SilentAfter(st: State, step: Step, after: seq<Step>, t: State)
    requires Inv(st) && RunInv(st) && Enabled(st, step) && (step.HardTimeout? || step.CancelManaged?)
    requires st.workers[st.entries[step.s].phase.worker].progress.Running?
    requires Trace(Next(st, step), after, t) && RememberingTrace(Next(st, step), after)
    requires Orderly(Next(st, step), after)
    ensures var w := st.entries[step.s].phase.worker;
            && st.bridge <= t.bridge && Flights(t, w) <= Flights(st, w)
            && EventsOf(t.bridge[|st.bridge|..], w) == |Flights(st, w)| - |Flights(t, w)|
  {
    var w := st.entries[step.s].phase.worker;
    QuarantineSilences(st, step);
    QuarantineBridge(st, step);
    StepInv(st, step);
    StepRunInv(st, step);
    SilentForever(Next(st, step), after, t, w, st.workers[w].progress.run);
  }

  /** What a quarantine silences: the check lets an event pass exactly when the run it
      belongs to is not registered. */
  lemma CheckIff(st: State, w: Worker, th: Thread)
    requires RunInv(st) && Enabled(st, Check(w, th))
    ensures th in Next(st, Check(w, th)).flying <==> st.workers[w].progress.run !in st.retired
  {
  }

  /** An event that passed the check just before the quarantine arrives after it. */
  lemma LateEvent(st: State, step: Step, th: Thread) returns (t: State)
    requires RunInv(st) && Enabled(st, step) && (step.HardTimeout? || step.CancelManaged?) && th !in st.flying
    requires st.workers[st.entries[step.s].phase.worker].progress.Running?
    requires st.workers[st.entries[step.s].phase.worker].progress.run !in st.retired
    ensures var w := st.entries[step.s].phase.worker;
            && Trace(st, [Check(w, th), step, Deliver(th)], t)
            && t.bridge == st.bridge + [Event(w, st.workers[w].progress.run)]
            && st.workers[w].progress.run in t.retired
  {
    var w := st.entries[step.s].phase.worker;
    var s1 := Next(st, Check(w, th));
    CheckIff(st, w, th);
    assert Enabled(s1, step);
    var s2 := Next(s1, step);
    QuarantineBridge(s1, step);
    t := Next(s2, Deliver(th));
    var steps := [Check(w, th), step, Deliver(th)];
    assert steps[1..] == [step, Deliver(th)] && [step, Deliver(th)][1..] == [Deliver(th)] && [Deliver(th)][1..] == [];
    assert Trace(t, [], t);
    assert Trace(s2, [Deliver(th)], t);
    assert Trace(s1, [step, Deliver(th)], t);
  }

  /** A worker quarantined before it has drawn its run id escapes: what was registered is
      the agent's previous run, or nothing, and its own events pass. */
  lemma EarlyQuarantineLeaks(st: State, step: Step, th: Thread) returns (rest: seq<Step>, t: State)
    requires Inv(st) && RunInv(st) && Enabled(st, step) && (step.HardTimeout? || step.CancelManaged?)
    requires Busy(st, st.entries[step.s].phase.worker) && th !in st.flying
    requires !st.workers[st.entries[step.s].phase.worker].progress.Running?
    ensures Trace(Next(st, step), rest, t)
    ensures t.bridge == st.bridge + [Event(st.entries[step.s].phase.worker, st.runs)]
  {
    var w := st.entries[step.s].phase.worker;
    var s1 := Next(st, step);
    StepRunInv(st, step);
    StepInv(st, step);
    assert s1.runs == st.runs && s1.bridge == st.bridge && s1.flying == st.flying;
    if s1.workers[w].progress.Queued? {
      var s2 := Next(s1, Begin(w));
      StepInv(s1, Begin(w));
      StepRunInv(s1, Begin(w));
      var last;
      last, t := StartedLeaks(s2, w, th);
      rest := [Begin(w)] + last;
      assert rest[1..] == last;
    } else {
      rest, t := StartedLeaks(s1, w, th);
    }
  }

  lemma StartedLeaks(st: State, w: Worker, th: Thread) returns (rest: seq<Step>, t: State)
    requires RunInv(st) && Enabled(st, Draw(w)) && th !in st.flying
    ensures rest == [Draw(w), Check(w, th), Deliver(th)] && Trace(st, rest, t)
    ensures t.bridge == st.bridge + [Event(w, st.runs)]
  {
    var s2 := Next(st, Draw(w));
    assert st.runs !in st.retired;
    var s3 := Next(s2, Check(w, th));
    t := Next(s3, Deliver(th));
    rest := [Draw(w), Check(w, th), Deliver(th)];
    var two, one := [Check(w, th), Deliver(th)], [Deliver(th)];
    assert rest[1..] == two && two[1..] == one && one[1..] == [];
    assert Trace(t, [], t);
    assert Trace(s3, one, t);
    assert Trace(s2, two, t);
  }

  /** At its cap the register forgets every run but the newest one. */
  lemma CapForgets(st: State, step: Step, r: RunId)
    requires Inv(st) && RunInv(st) && Enabled(st, step) && (step.HardTimeout? || step.CancelManaged?)
    requires |st.retired| >= st.cap && r in st.retired
    requires st.workers[st.entries[step.s].phase.worker].agent in st.runIds
    ensures r in Next(st, step).retired <==>
            r == st.runIds[st.workers[st.entries[step.s].phase.worker].agent]
    ensures Next(st, step).retired == {st.runIds[st.workers[st.entries[step.s].phase.worker].agent]}
  {
  }

  /** A hard timeout also withdraws a job that has not begun; until the pool notices, the
      job may still begin, and in either case its agent is nobody's. */
  lemma WithdrawnJob(st: State, s: Session)
    requires Inv(st) && Enabled(st, HardTimeout(s))
    requires st.workers[st.entries[s].phase.worker].progress.Queued?
    ensures var w := st.entries[s].phase.worker;
            var t := Next(st, HardTimeout(s));
            && Enabled(t, Drop(w)) && Enabled(t, Begin(w)) && Detached(t, w)
            && !Busy(Next(t, Drop(w)), w)
  {
    var w, t := st.entries[s].phase.worker, Next(st, HardTimeout(s));
    forall k | k in t.entries ensures t.entries[k].agent != Some(t.workers[w].agent) {}
  }

  // ---------- a session from turn to turn ----------

  /** After a normal return the session is free, keeps its agent, and the next turn runs on
      it; nothing else has changed. */
  lemma ReturnKeepsAgent(st: State, s: Session, managed: bool) returns (t: State)
    requires Inv(st) && Enabled(st, Return(s))
    ensures Trace(st, [Return(s), Enter(s, managed), Submit(s)], t)
    ensures |t.workers| == |st.workers| + 1 && t.workers[..|st.workers|] == st.workers
    ensures t.workers[|st.workers|].agent == st.workers[st.entries[s].phase.worker].agent
    ensures t.agents == st.agents && t.retired == st.retired && t.bridge == st.bridge
  {
    t := NextTurn(st, Return(s), s, managed);
  }

  lemma NextTurn(st: State, step: Step, s: Session, managed: bool) returns (t: State)
    requires Enabled(st, step) && s in Next(st, step).entries
    requires Next(st, step).entries[s].phase.Idle? && Next(st, step).entries[s].agent.Some?
    ensures Trace(st, [step, Enter(s, managed), Submit(s)], t)
    ensures var u := Next(st, step);
            && t.workers == u.workers + [Job(u.entries[s].agent.value, Queued, false)]
            && t.agents == u.agents && t.retired == u.retired && t.bridge == u.bridge
  {
    var u := Next(st, step);
    var v := Next(u, Enter(s, managed));
    t := Next(v, Submit(s));
    var steps, rest, last := [step, Enter(s, managed), Submit(s)], [Enter(s, managed), Submit(s)], [Submit(s)];
    assert steps[1..] == rest && rest[1..] == last && last[1..] == [];
    assert Trace(t, [], t);
    assert Trace(v, last, t);
    assert Trace(u, rest, t);
  }

  /** After a quarantine it has none: it must create a new one, of no other use. */
  lemma QuarantineForgets(st: State, step: Step, managed: bool)
    requires Inv(st) && Enabled(st, step) && (step.HardTimeout? || step.CancelManaged?)
    ensures var s, t := step.s, Next(st, step);
            && t.entries[s].agent.None? && t.entries[s].phase.Idle?
            && var u := Next(t, Enter(s, managed));
               && !Enabled(u, Submit(s)) && Enabled(u, Create(s))
               && Next(u, Create(s)).entries[s].agent == Some(st.agents)
               && forall w :: 0 <= w < |st.workers| ==> st.workers[w].agent != st.agents
  {
  }

  predicate OfSession(step: Step) {
    step.Enter? || step.Create? || step.Leave? || step.Submit? || step.Return? || step.HardTimeout? ||
    step.CancelManaged? || step.CancelUnmanaged?
  }

  /** A step of one session leaves the entries of all others alone. */
  lemma OtherSessions(st: State, step: Step, s: Session)
    requires Enabled(st, step) && s in st.entries
    requires OfSession(step) ==> step.s != s
    ensures s in Next(st, step).entries && Next(st, step).entries[s] == st.entries[s]
  {
  }

  /** What has begun can end, whatever else is going on; a turn that ends before its work is
      submitted frees the session and keeps what agent it has. */
  lemma EndsAreOpen(st: State, w: Worker, s: Session)
    ensures w < |st.workers| && st.workers[w].progress.Running? ==>
            Enabled(st, Finish(w)) && Next(st, Finish(w)).workers[w].progress.Finished?
    ensures w < |st.workers| && st.workers[w].progress.Started? ==>
            && Enabled(st, Finish(w)) && Next(st, Finish(w)).workers[w].progress.Finished?
            && Enabled(st, Draw(w)) && Next(st, Draw(w)).workers[w].progress == Running(st.runs)
    ensures s in st.entries && st.entries[s].phase.Entered? ==>
            Enabled(st, Leave(s)) &&
            Next(st, Leave(s)) == st.(entries := st.entries[s := Entry(st.entries[s].agent, Idle)])
  {
  }
}
