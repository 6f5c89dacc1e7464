/** The hand-written read/write lock of the memory store: `_RWLock` (memory/manager.py).
    Each critical section of its condition variable is one atomic step of one thread. */
module RWLock {

  type Thread = nat

  datatype Phase =
    | Outside
    | Reading
    | Writing
    | ReaderAsleep | ReaderAwake     // inside read(), before or after a notification
    | WriterAsleep | WriterAwake     // inside write(), likewise

  /** The lock's own counters and, beside them, where every thread really is. */
  datatype State = State(readers: int, writer: bool, writeWaiters: int, phases: map<Thread, Phase>)

  function In(s: State, p: Phase): set<Thread> {
    set t | t in s.phases && s.phases[t] == p
  }

  datatype Step =
    | TryRead(t: Thread)      // enter read(), or re-check after waking
    | TryWrite(t: Thread)     // likewise for write()
    | EndRead(t: Thread)
    | EndWrite(t: Thread)
    | Interrupt(t: Thread)    // an exception leaves the wait of write()

  function Notify(p: Phase): Phase {
    match p
    case ReaderAsleep => ReaderAwake
    case WriterAsleep => WriterAwake
    case _ => p
  }

  function NotifyAll(phases: map<Thread, Phase>): map<Thread, Phase> {
    map t | t in phases :: Notify(phases[t])
  }

  predicate Enabled(s: State, step: Step) {
    step.t in s.phases &&
    var p := s.phases[step.t];
    match step
    case TryRead(_) => p.Outside? || p.ReaderAwake?
    case TryWrite(_) => p.Outside? || p.WriterAwake?
    case EndRead(_) => p.Reading?
    case EndWrite(_) => p.Writing?
    case Interrupt(_) => p.WriterAsleep? || p.WriterAwake?
  }

  function Next(s: State, step: Step): State
    requires Enabled(s, step)
  {
    var t := step.t;
    match step
    case TryRead(_) =>
      if s.writer || s.writeWaiters != 0 then s.(phases := s.phases[t := ReaderAsleep])
      else s.(readers := s.readers + 1, phases := s.phases[t := Reading])
    case TryWrite(_) =>
      var waiters := if s.phases[t].Outside? then s.writeWaiters + 1 else s.writeWaiters;
      if s.writer || s.readers != 0 then s.(writeWaiters := waiters, phases := s.phases[t := WriterAsleep])
      else s.(writer := true, writeWaiters := waiters - 1, phases := s.phases[t := Writing])
    case EndRead(_) =>
      var gone := s.phases[t := Outside];
      s.(readers := s.readers - 1, phases := if s.readers == 1 then NotifyAll(gone) else gone)
    case EndWrite(_) => s.(writer := false, phases := NotifyAll(s.phases[t := Outside]))
    case Interrupt(_) => s.(writeWaiters := s.writeWaiters - 1, phases := s.phases[t := Outside])
  }

  // ---------- the lock object ----------

  /** The fields of the lock, changed by the critical sections; `phases` is the ghost record
      of what each thread does. */
  class Lock {
    var readers: int
    var writer: bool
    var writeWaiters: int
    ghost var phases: map<Thread, Phase>

    ghost function Abs(): State
      reads this
    {
      State(readers, writer, writeWaiters, phases)
    }

    constructor (ghost threads: set<Thread>)
      ensures Abs() == Fresh(threads)
    {
      readers, writer, writeWaiters := 0, false, 0;
      phases := map t | t in threads :: Outside;
    }

    /** One round of the loop in read(); false means the thread sleeps. */
    method TryRead(ghost t: Thread) returns (entered: bool)
      requires Enabled(Abs(), Step.TryRead(t))
      modifies this
      ensures Abs() == Next(old(Abs()), Step.TryRead(t))
      ensures entered <==> phases[t].Reading?
    {
      if writer || writeWaiters != 0 {
        phases := phases[t := ReaderAsleep];
        return false;
      }
      readers := readers + 1;
      phases := phases[t := Reading];
      return true;
    }

    /** Entry of write(): announce, then the first round of its loop. */
    method TryWrite(ghost t: Thread, first: bool) returns (entered: bool)
      requires Enabled(Abs(), Step.TryWrite(t)) && (first <==> phases[t].Outside?)
      modifies this
      ensures Abs() == Next(old(Abs()), Step.TryWrite(t))
      ensures entered <==> phases[t].Writing?
    {
      if first {
        writeWaiters := writeWaiters + 1;
      }
      if writer || readers != 0 {
        phases := phases[t := WriterAsleep];
        return false;
      }
      writer := true;
      writeWaiters := writeWaiters - 1;
      phases := phases[t := Writing];
      return true;
    }

    method EndRead(ghost t: Thread)
      requires Enabled(Abs(), Step.EndRead(t))
      modifies this
      ensures Abs() == Next(old(Abs()), Step.EndRead(t))
    {
      readers := readers - 1;
      phases := phases[t := Outside];
      if readers == 0 {
        phases := NotifyAll(phases);
      }
    }

    method EndWrite(ghost t: Thread)
      requires Enabled(Abs(), Step.EndWrite(t))
      modifies this
      ensures Abs() == Next(old(Abs()), Step.EndWrite(t))
    {
      writer := false;
      phases := NotifyAll(phases[t := Outside]);
    }
  }

  function Fresh(threads: set<Thread>): State {
    State(0, false, 0, map t | t in threads :: Outside)
  }

  // ---------- safety ----------

  /** The counters count. */
  predicate Counted(s: State) {
    && s.readers == |In(s, Reading)|
    && (s.writer <==> In(s, Writing) != {})
    && |In(s, Writing)| <= 1
    && s.writeWaiters == |In(s, WriterAsleep)| + |In(s, WriterAwake)|
  }

  predicate Exclusive(s: State) {
    In(s, Writing) == {} || In(s, Reading) == {}
  }

  predicate NoHolder(s: State) {
    In(s, Reading) == {} && In(s, Writing) == {}
  }

  /** Without a holder every waiting writer is awake, and if none waits then every waiting
      reader is awake too. */
  predicate NoLostWakeUp(s: State) {
    NoHolder(s) ==>
      In(s, WriterAsleep) == {} && (In(s, WriterAwake) == {} ==> In(s, ReaderAsleep) == {})
  }

  predicate Inv(s: State) {
    Counted(s) && Exclusive(s) && NoLostWakeUp(s)
  }

  lemma Moved(s: State, t: Thread, p: Phase, q: Phase)
    requires t in s.phases
    ensures In(s.(phases := s.phases[t := p]), q) == if p == q then In(s, q) + {t} else In(s, q) - {t}
  {
  }

  lemma Notified(phases: map<Thread, Phase>, s: State, n: State)
    requires s.phases == phases && n.phases == NotifyAll(phases)
    ensures In(n, ReaderAsleep) == {} && In(n, WriterAsleep) == {}
    ensures In(n, Reading) == In(s, Reading) && In(n, Writing) == In(s, Writing)
    ensures In(n, ReaderAwake) == In(s, ReaderAwake) + In(s, ReaderAsleep)
    ensures In(n, WriterAwake) == In(s, WriterAwake) + In(s, WriterAsleep)
    ensures In(s, WriterAwake) !! In(s, WriterAsleep)
  {
  }

  lemma FreshInv(threads: set<Thread>)
    ensures Inv(Fresh(threads))
  {
    var s := Fresh(threads);
    assert In(s, Reading) == {} && In(s, Writing) == {} && In(s, WriterAsleep) == {} && In(s, WriterAwake) == {};
    assert In(s, ReaderAsleep) == {};
  }

  /** A thread that goes to sleep in read(). */
  lemma ReaderSleeps(s: State, t: Thread)
    requires Inv(s) && Enabled(s, TryRead(t)) && (s.writer || s.writeWaiters != 0)
    ensures Inv(Next(s, TryRead(t)))
  {
    var n := s.(phases := s.phases[t := ReaderAsleep]);
    Unmoved(s, t, ReaderAsleep, Reading);
    Unmoved(s, t, ReaderAsleep, Writing);
    Unmoved(s, t, ReaderAsleep, WriterAsleep);
    Unmoved(s, t, ReaderAsleep, WriterAwake);
    assert Counted(n) && Exclusive(n) && (NoHolder(s) <==> NoHolder(n));
  }

  lemma ReaderEnters(s: State, t: Thread)
    requires Inv(s) && Enabled(s, TryRead(t)) && !s.writer && s.writeWaiters == 0
    ensures Inv(Next(s, TryRead(t)))
  {
    var n := Next(s, TryRead(t));
    SameGroups(n, s.(phases := s.phases[t := Reading]));
    Moved(s, t, Reading, Reading);
    Unmoved(s, t, Reading, Writing);
    Unmoved(s, t, Reading, WriterAsleep);
    Unmoved(s, t, Reading, WriterAwake);
    assert t !in In(s, Reading) && t in In(n, Reading);
  }

  lemma Unmoved(s: State, t: Thread, p: Phase, q: Phase)
    requires t in s.phases && s.phases[t] != q && p != q
    ensures In(s.(phases := s.phases[t := p]), q) == In(s, q)
  {
    Moved(s, t, p, q);
  }

  lemma TryReadInv(s: State, t: Thread)
    requires Inv(s) && Enabled(s, TryRead(t))
    ensures Inv(Next(s, TryRead(t)))
  {
    if s.writer || s.writeWaiters != 0 {
      ReaderSleeps(s, t);
    } else {
      ReaderEnters(s, t);
    }
  }

  /** Where a move of one thread leaves every group. */
  lemma MovedAll(s: State, t: Thread, p: Phase)
    requires t in s.phases
    ensures var n := s.(phases := s.phases[t := p]);
            forall q :: In(n, q) == if p == q then In(s, q) + {t} else In(s, q) - {t}
  {
    forall q {
      Moved(s, t, p, q);
    }
  }

  lemma TryWriteInv(s: State, t: Thread)
    requires Inv(s) && Enabled(s, TryWrite(t))
    ensures Inv(Next(s, TryWrite(t)))
  {
    var p := if s.writer || s.readers != 0 then WriterAsleep else Writing;
    MovedAll(s, t, p);
    var n := Next(s, TryWrite(t));
    assert t !in In(s, Reading) && t !in In(s, Writing) && t !in In(s, WriterAsleep);
    assert In(n, Writing) == if p.Writing? then {t} else In(s, Writing);
    assert t in In(s, WriterAwake) <==> s.phases[t].WriterAwake?;
    assert In(n, WriterAwake) == In(s, WriterAwake) - {t};
    assert In(n, WriterAsleep) == if p.WriterAsleep? then In(s, WriterAsleep) + {t} else In(s, WriterAsleep);
  }

  lemma EndReadInv(s: State, t: Thread)
    requires Inv(s) && Enabled(s, EndRead(t))
    ensures Inv(Next(s, EndRead(t)))
  {
    var gone := s.(phases := s.phases[t := Outside]);
    MovedAll(s, t, Outside);
    var n := Next(s, EndRead(t));
    assert t in In(s, Reading);
    assert In(gone, Reading) == In(s, Reading) - {t};
    assert t !in In(s, WriterAsleep) && t !in In(s, WriterAwake) && t !in In(s, Writing);
    if s.readers == 1 {
      Notified(gone.phases, gone, n);
    }
  }

  lemma EndWriteInv(s: State, t: Thread)
    requires Inv(s) && Enabled(s, EndWrite(t))
    ensures Inv(Next(s, EndWrite(t)))
  {
    var gone, n := s.(phases := s.phases[t := Outside]), Next(s, EndWrite(t));
    OnlyWriter(s, t);
    Moved(s, t, Outside, Reading);
    Moved(s, t, Outside, Writing);
    Moved(s, t, Outside, WriterAsleep);
    Moved(s, t, Outside, WriterAwake);
    assert t !in In(s, WriterAsleep) && t !in In(s, WriterAwake);
    assert In(s, Reading) == {};
    Notified(gone.phases, gone, n);
    assert In(n, Writing) == {} && In(n, Reading) == {};
    assert |In(n, WriterAwake)| == |In(s, WriterAwake)| + |In(s, WriterAsleep)|;
  }

  lemma OnlyWriter(s: State, t: Thread)
    requires Counted(s) && t in s.phases && s.phases[t].Writing?
    ensures In(s, Writing) == {t}
  {
    assert t in In(s, Writing);
    assert |In(s, Writing) - {t}| == |In(s, Writing)| - 1;
  }

  lemma StepInv(s: State, step: Step)
    requires Inv(s) && Enabled(s, step) && !step.Interrupt?
    ensures Inv(Next(s, step))
  {
    match step {
      case TryRead(t) => TryReadInv(s, t);
      case TryWrite(t) => TryWriteInv(s, t);
      case EndRead(t) => EndReadInv(s, t);
      case EndWrite(t) => EndWriteInv(s, t);
    }
  }

  predicate Trace(s: State, steps: seq<Step>, n: State)
    decreases |steps|
  {
    if steps == [] then s == n else Enabled(s, steps[0]) && Trace(Next(s, steps[0]), steps[1..], n)
  }

  lemma {:induction false} TraceInv(s: State, steps: seq<Step>, n: State)
    requires Inv(s) && Trace(s, steps, n) && forall i :: 0 <= i < |steps| ==> !steps[i].Interrupt?
    ensures Inv(n)
    decreases |steps|
  {
    if steps != [] {
      StepInv(s, steps[0]);
      TraceInv(Next(s, steps[0]), steps[1..], n);
    }
  }

  /** Every run of any set of threads keeps the lock exclusive and its counters true. */
  lemma ReachableInv(threads: set<Thread>, steps: seq<Step>, n: State)
    requires Trace(Fresh(threads), steps, n) && forall i :: 0 <= i < |steps| ==> !steps[i].Interrupt?
    ensures Inv(n)
  {
    FreshInv(threads);
    TraceInv(Fresh(threads), steps, n);
  }

  // ---------- progress ----------

  predicate Waiting(p: Phase) {
    p.ReaderAsleep? || p.ReaderAwake? || p.WriterAsleep? || p.WriterAwake?
  }

  /** With no holder and somebody waiting, some waiter is awake and its next step enters. */
  lemma SomeoneProceeds(s: State, t: Thread) returns (step: Step)
    requires Inv(s) && NoHolder(s) && t in s.phases && Waiting(s.phases[t])
    ensures Enabled(s, step) && Waiting(s.phases[step.t])
    ensures Next(s, step).phases[step.t].Reading? || Next(s, step).phases[step.t].Writing?
  {
    if In(s, WriterAwake) != {} {
      var w :| w in In(s, WriterAwake);
      step := TryWrite(w);
    } else {
      assert t !in In(s, WriterAsleep) && t !in In(s, ReaderAsleep) && t !in In(s, WriterAwake);
      step := TryRead(t);
    }
  }

  /** No reader enters past a waiting writer. */
  lemma WritersFirst(s: State, t: Thread, w: Thread)
    requires Inv(s) && Enabled(s, TryRead(t)) && w in s.phases
    requires s.phases[w].WriterAsleep? || s.phases[w].WriterAwake?
    ensures Next(s, TryRead(t)).phases[t].ReaderAsleep?
  {
    assert w in In(s, WriterAsleep) + In(s, WriterAwake);
    assert |In(s, WriterAsleep)| + |In(s, WriterAwake)| > 0;
  }

  // ---------- the exceptional path ----------

  lemma InterruptGroups(s: State, t: Thread)
    requires Enabled(s, Interrupt(t))
    ensures var n := s.(phases := s.phases[t := Outside]);
            && In(n, Reading) == In(s, Reading) && In(n, Writing) == In(s, Writing)
            && In(n, ReaderAsleep) == In(s, ReaderAsleep)
            && In(n, WriterAsleep) == In(s, WriterAsleep) - {t} && In(n, WriterAwake) == In(s, WriterAwake) - {t}
            && |In(n, WriterAsleep)| + |In(n, WriterAwake)| == |In(s, WriterAsleep)| + |In(s, WriterAwake)| - 1
  {
    MovedOut(s, t, Reading);
    MovedOut(s, t, Writing);
    MovedOut(s, t, ReaderAsleep);
    MovedOut(s, t, WriterAsleep);
    MovedOut(s, t, WriterAwake);
    OneLess(In(s, WriterAsleep), In(s, WriterAwake), t);
  }

  lemma MovedOut(s: State, t: Thread, q: Phase)
    requires t in s.phases && q != Outside
    ensures In(s.(phases := s.phases[t := Outside]), q) == In(s, q) - {t}
    ensures t in In(s, q) <==> s.phases[t] == q
    ensures t !in In(s, q) ==> In(s, q) - {t} == In(s, q)
  {
    Moved(s, t, Outside, q);
  }

  lemma SameGroups(s: State, n: State)
    requires s.phases == n.phases
    ensures forall q :: In(s, q) == In(n, q)
  {
  }

  lemma OneLess(a: set<Thread>, b: set<Thread>, t: Thread)
    requires t in a <==> t !in b
    ensures |a - {t}| + |b - {t}| == |a| + |b| - 1
  {
    if t in a {
      assert b - {t} == b;
    } else {
      assert a - {t} == a;
    }
  }

  /** An interrupted wait never breaks exclusion or the counters; it loses a wake-up
      exactly when the lock is free and the only waiting writer gives up while a reader
      sleeps because of it. */
  lemma InterruptIff(s: State, t: Thread)
    requires Inv(s) && Enabled(s, Interrupt(t))
    ensures Counted(Next(s, Interrupt(t))) && Exclusive(Next(s, Interrupt(t)))
    ensures NoLostWakeUp(Next(s, Interrupt(t))) <==>
      !(NoHolder(s) && In(s, WriterAwake) == {t} && In(s, ReaderAsleep) != {})
  {
    InterruptGroups(s, t);
    SameGroups(s.(phases := s.phases[t := Outside]), Next(s, Interrupt(t)));
    assert In(s, WriterAwake) - {t} == {} <==> In(s, WriterAwake) == {} || In(s, WriterAwake) == {t};
    assert t in In(s, WriterAsleep) || t in In(s, WriterAwake);
  }

  /** An exception that ends the wait of write() gives up the claim without notifying.  A
      reader that went back to sleep because of that claim then sleeps on with the lock
      free: the reachable state below has no holder, no writer, and nobody awake. */
  lemma InterruptLosesWakeUp(a: Thread, w: Thread, r: Thread) returns (steps: seq<Step>, n: State)
    requires a != w && w != r && a != r
    ensures Trace(Fresh({a, w, r}), steps, n)
    ensures n.phases == map[a := Outside, w := Outside, r := ReaderAsleep]
    ensures NoHolder(n) && !NoLostWakeUp(n)
    ensures forall step :: Enabled(n, step) ==> step.t != r
  {
    var s0, s1 := Fresh({a, w, r}), Placed(1, 0, a, Reading, w, Outside, r, Outside);
    var s2 := Placed(1, 1, a, Reading, w, WriterAsleep, r, Outside);
    n := Placed(0, 0, a, Outside, w, Outside, r, ReaderAsleep);
    var rest := [EndRead(a), TryRead(r), Interrupt(w)];
    ReaderLeftBehind(a, w, r);
    assert Next(s1, TryWrite(w)).phases == s2.phases;
    Prepend(s1, TryWrite(w), rest, n);
    assert Next(s0, TryRead(a)).phases == s1.phases;
    Prepend(s0, TryRead(a), [TryWrite(w)] + rest, n);
    steps := [TryRead(a)] + ([TryWrite(w)] + rest);
    assert r in In(n, ReaderAsleep);
  }

  lemma ReaderLeftBehind(a: Thread, w: Thread, r: Thread)
    requires a != w && w != r && a != r
    ensures Trace(Placed(1, 1, a, Reading, w, WriterAsleep, r, Outside), [EndRead(a), TryRead(r), Interrupt(w)],
                  Placed(0, 0, a, Outside, w, Outside, r, ReaderAsleep))
  {
    var s2 := Placed(1, 1, a, Reading, w, WriterAsleep, r, Outside);
    var s3 := Placed(0, 1, a, Outside, w, WriterAwake, r, Outside);
    var s4 := Placed(0, 1, a, Outside, w, WriterAwake, r, ReaderAsleep);
    var n := Placed(0, 0, a, Outside, w, Outside, r, ReaderAsleep);
    assert Next(s4, Interrupt(w)).phases == n.phases;
    Prepend(s4, Interrupt(w), [], n);
    assert Next(s3, TryRead(r)).phases == s4.phases;
    Prepend(s3, TryRead(r), [Interrupt(w)], n);
    LastReaderLeaves(s2, s3, a, w, r);
    Prepend(s2, EndRead(a), [TryRead(r), Interrupt(w)], n);
  }

  function Placed(readers: int, waiters: int, a: Thread, p: Phase, w: Thread, q: Phase, r: Thread, o: Phase): State {
    State(readers, false, waiters, map[a := p, w := q, r := o])
  }

  lemma LastReaderLeaves(s: State, n: State, a: Thread, w: Thread, r: Thread)
    requires a != w && w != r && a != r
    requires s == Placed(1, 1, a, Reading, w, WriterAsleep, r, Outside)
    requires n == Placed(0, 1, a, Outside, w, WriterAwake, r, Outside)
    ensures Next(s, EndRead(a)) == n
  {
    assert NotifyAll(s.phases[a := Outside]) == n.phases;
  }

  lemma Prepend(s: State, step: Step, rest: seq<Step>, n: State)
    requires Enabled(s, step) && Trace(Next(s, step), rest, n)
    ensures Trace(s, [step] + rest, n)
  {
    assert ([step] + rest)[1..] == rest;
  }
}
