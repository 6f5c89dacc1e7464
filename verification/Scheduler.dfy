/** The life of a scheduled job from firing to its terminal record: `Scheduler._try_fire`,
    `_fire`, `on_reply`, `_sweep_watchdogs`, `restore_runtime_context` and `_record`
    (gateway/scheduler.py).  None of these gives way between its checks and its updates, so
    each is one step. */
module Scheduler {
  import opened Text

  datatype Job = Job(name: string, persist: bool, capability: string, goalEnabled: bool, timeout: int)

  datatype Status =
    | SkippedOverlap | SkippedBusy | SkippedCapability | SkippedGoal
    | Fine | Failed | TimedOut

  /** `fire` numbers the accepted fires; skipped ones have none. */
  datatype Record = Record(name: string, trigger: string, status: Status, fire: Option<nat>)

  datatype Info = Info(job: Job, trigger: string, firedAt: real, fire: nat)

  datatype State = State(
    pending: map<string, Info>,
    running: set<string>,
    watchdogs: map<string, real>,     // deadline by session key
    expired: map<string, nat>,        // fires given up by a watchdog, open to a late reply
    maxConcurrent: int,
    log: seq<Record>,                 // every record ever made
    keys: seq<string>,                // session key of each accepted fire
    delivered: seq<nat>)              // fires whose reply was passed on

  function Fresh(maxConcurrent: int): State {
    State(map[], {}, map[], map[], maxConcurrent, [], [], [])
  }

  datatype Step =
    | TryFire(job: Job, trigger: string, now: real, stamp: string)
    | Manual(job: Job, now: real, stamp: string)
    | Reply(key: string, text: string)
    | Sweep(now: real, order: seq<string>)
    | Restore(key: string, job: Job, trigger: string, firedAt: real, now: real)
    | Reload(maxConcurrent: int)
    | Stop

  // ---------- keys, deadlines, statuses ----------

  function SessionKey(job: Job, stamp: string): string {
    "sched" + ":" + (if job.persist then job.name else job.name + ":" + stamp)
  }

  /** What stands between the first two colons of a key. */
  function NameOf(key: string): string {
    UpToColon(AfterColon(key))
  }

  function UpToColon(s: string): string {
    if s == "" || s[0] == ':' then "" else [s[0]] + UpToColon(s[1..])
  }

  function JobTimeout(job: Job): int {
    if job.timeout == 0 then 600 else job.timeout
  }

  /** The job's own limit with a minute of grace, but never before the agent's hard limit. */
  function Deadline(job: Job, firedAt: real, hard: real): real {
    var own, agent := JobTimeout(job) as real + 60.0, hard + 30.0;
    firedAt + if own < agent then agent else own
  }

  const FAILED_MARK := "❌"
  const TIMEOUT_MARK := "⏰ 处理超时"

  function Classify(text: string): Status {
    if FAILED_MARK <= Strip(text) then Failed
    else if TIMEOUT_MARK <= Strip(text) then TimedOut
    else Fine
  }

  /** A recovered instant must lie in the past. */
  function SaneInstant(firedAt: real, now: real): real {
    if 0.0 < firedAt <= now then firedAt else now
  }

  // ---------- steps ----------

  function Noted(s: State, name: string, trigger: string, status: Status): State {
    s.(log := s.log + [Record(name, trigger, status, None)])
  }

  function Registered(s: State, key: string, job: Job, trigger: string, firedAt: real, hard: real): State {
    s.(pending := s.pending[key := Info(job, trigger, firedAt, |s.keys|)],
       running := s.running + {job.name},
       watchdogs := s.watchdogs[key := Deadline(job, firedAt, hard)],
       keys := s.keys + [key])
  }

  /** An entry leaves with its terminal record. */
  function Released(s: State, key: string, status: Status): State
    requires key in s.pending
  {
    var info := s.pending[key];
    s.(pending := s.pending - {key}, running := s.running - {info.job.name}, watchdogs := s.watchdogs - {key},
       log := s.log + [Record(info.job.name, info.trigger, status, Some(info.fire))])
  }

  predicate Runnable(job: Job) {
    job.capability in {"plan", "subagent", "goal"} && (job.capability == "goal" ==> job.goalEnabled)
  }

  function Fired(s: State, job: Job, trigger: string, now: real, stamp: string, hard: real): State {
    if job.capability !in {"plan", "subagent", "goal"} then Noted(s, job.name, trigger, SkippedCapability)
    else if job.capability == "goal" && !job.goalEnabled then Noted(s, job.name, trigger, SkippedGoal)
    else Registered(s, SessionKey(job, stamp), job, trigger, now, hard)
  }

  function Tried(s: State, job: Job, trigger: string, now: real, stamp: string, hard: real): State {
    if job.name in s.running then Noted(s, job.name, trigger, SkippedOverlap)
    else if |s.running| >= s.maxConcurrent then Noted(s, job.name, trigger, SkippedBusy)
    else Fired(s, job, trigger, now, stamp, hard)
  }

  function Replied(s: State, key: string, text: string): State {
    if key in s.pending then Released(s, key, Classify(text)).(delivered := s.delivered + [s.pending[key].fire])
    else
      var t := s.(watchdogs := s.watchdogs - {key});
      if key in s.expired then t.(expired := s.expired - {key}, delivered := s.delivered + [s.expired[key]]) else t
  }

  function SweptKey(s: State, key: string, now: real): State {
    if key !in s.watchdogs || now < s.watchdogs[key] then s
    else if key !in s.pending then s.(watchdogs := s.watchdogs - {key})
    else Released(s, key, Failed).(expired := s.expired[key := s.pending[key].fire])
  }

  function Swept(s: State, order: seq<string>, now: real): State
    decreases |order|
  {
    if order == [] then s else Swept(SweptKey(s, order[0], now), order[1..], now)
  }

  /** A sweep walks over a listing of the watchdogs. */
  predicate Lists(order: seq<string>, watchdogs: map<string, real>) {
    (set key | key in order) == watchdogs.Keys
  }

  ghost predicate Enabled(s: State, step: Step) {
    step.Sweep? ==> Lists(step.order, s.watchdogs)
  }

  function Next(s: State, step: Step, hard: real): State {
    match step
    case TryFire(job, trigger, now, stamp) => Tried(s, job, trigger, now, stamp, hard)
    case Manual(job, now, stamp) =>
      if job.name in s.running || |s.running| >= s.maxConcurrent then s
      else Fired(s, job, "manual", now, stamp, hard)
    case Reply(key, text) => Replied(s, key, text)
    case Sweep(now, order) => Swept(s, order, now)
    case Restore(key, job, trigger, firedAt, now) =>
      Registered(s, key, job, trigger, SaneInstant(firedAt, now), hard)
    case Reload(n) => s.(maxConcurrent := n)
    case Stop => s.(watchdogs := map[], expired := map[])
  }

  // ---------- the code ----------

  datatype Stats = Stats(runs: nat, failures: nat)

  /** The records of one name that count as runs; refusals for lack of room do not. */
  function Counted(log: seq<Record>, name: string): Stats {
    if log == [] then Stats(0, 0)
    else
      var n := |log| - 1;
      CountedWith(Counted(log[..n], name), log[n], name)
  }

  function CountedWith(before: Stats, r: Record, name: string): Stats {
    if r.name != name || r.status.SkippedOverlap? || r.status.SkippedBusy? then before
    else Stats(before.runs + 1, before.failures + if r.status.Failed? || r.status.TimedOut? then 1 else 0)
  }

  function StatsOf(stats: map<string, Stats>, name: string): Stats {
    if name in stats then stats[name] else Stats(0, 0)
  }

  ghost predicate Tallies(stats: map<string, Stats>, log: seq<Record>) {
    forall name :: StatsOf(stats, name) == Counted(log, name)
  }

  function LastOf(log: seq<Record>, n: int): seq<Record> {
    if n <= 0 then [] else if |log| <= n then log else log[|log| - n..]
  }

  class Scheduler {
    const hard: real
    const historyLimit: int
    var pending: map<string, Info>
    var running: set<string>
    var watchdogs: map<string, real>
    var expired: map<string, nat>
    var maxConcurrent: int
    var history: seq<Record>
    var stats: map<string, Stats>
    var fires: nat
    ghost var log: seq<Record>
    ghost var keys: seq<string>
    ghost var delivered: seq<nat>

    ghost function Abs(): State
      reads this
    {
      State(pending, running, watchdogs, expired, maxConcurrent, log, keys, delivered)
    }

    /** The kept history is the end of the whole log, the statistics count all of it. */
    ghost predicate Valid()
      reads this
    {
      && fires == |keys|
      && history == LastOf(log, historyLimit)
      && Tallies(stats, log)
    }

    constructor (maxConcurrent: int, hard: real, historyLimit: int)
      ensures Valid() && Abs() == Fresh(maxConcurrent) && this.hard == hard && this.historyLimit == historyLimit
    {
      pending, running, watchdogs, expired := map[], {}, map[], map[];
      this.maxConcurrent, this.hard, this.historyLimit := maxConcurrent, hard, historyLimit;
      history, stats, fires := [], map[], 0;
      log, keys, delivered := [], [], [];
    }

    method Tally(name: string, status: Status)
      modifies this`stats
      ensures stats == old(stats)[name := CountedWith(StatsOf(old(stats), name), Record(name, "", status, None), name)]
    {
      var tally := StatsOf(stats, name);
      if !status.SkippedOverlap? && !status.SkippedBusy? {
        tally := tally.(runs := tally.runs + 1);
        if status.Failed? || status.TimedOut? {
          tally := tally.(failures := tally.failures + 1);
        }
      }
      stats := stats[name := tally];
    }

    method AppendHistory(entry: Record)
      modifies this`history
      ensures history == LastOf(old(history) + [entry], historyLimit)
    {
      history := history + [entry];
      if |history| > historyLimit {
        history := if historyLimit <= 0 then [] else history[|history| - historyLimit..];
      }
    }

    method MakeRecord(name: string, trigger: string, status: Status, fire: Option<nat>)
      requires Valid()
      modifies this`history, this`stats, this`log
      ensures Valid() && log == old(log) + [Record(name, trigger, status, fire)]
    {
      var entry := Record(name, trigger, status, fire);
      TalliesMore(stats, log, entry);
      LastOfMore(log, entry, historyLimit);
      Tally(name, status);
      AppendHistory(entry);
      log := log + [entry];
    }

    /** The body of `_fire` up to the dispatch of its message. */
    method Fire(job: Job, trigger: string, now: real, stamp: string)
      requires Valid()
      modifies this
      ensures Valid() && Abs() == Fired(old(Abs()), job, trigger, now, stamp, hard)
    {
      if job.capability !in {"plan", "subagent", "goal"} {
        MakeRecord(job.name, trigger, SkippedCapability, None);
        return;
      }
      if job.capability == "goal" && !job.goalEnabled {
        MakeRecord(job.name, trigger, SkippedGoal, None);
        return;
      }
      var key := SessionKey(job, stamp);
      pending := pending[key := Info(job, trigger, now, fires)];
      running := running + {job.name};
      watchdogs := watchdogs[key := Deadline(job, now, hard)];
      fires := fires + 1;
      keys := keys + [key];
    }

    method TryFire(job: Job, trigger: string, now: real, stamp: string) returns (accepted: bool)
      requires Valid()
      modifies this
      ensures Valid() && Abs() == Next(old(Abs()), Step.TryFire(job, trigger, now, stamp), hard)
      ensures accepted <==> job.name !in old(running) && |old(running)| < maxConcurrent
    {
      if job.name in running {
        MakeRecord(job.name, trigger, SkippedOverlap, None);
        return false;
      }
      if |running| >= maxConcurrent {
        MakeRecord(job.name, trigger, SkippedBusy, None);
        return false;
      }
      Fire(job, trigger, now, stamp);
      accepted := true;
    }

    method OnReply(key: string, text: string)
      requires Valid()
      modifies this
      ensures Valid() && Abs() == Next(old(Abs()), Step.Reply(key, text), hard)
    {
      if key !in pending {
        watchdogs := watchdogs - {key};
        if key in expired {
          delivered := delivered + [expired[key]];
          expired := expired - {key};
        }
        return;
      }
      var fire := pending[key].fire;
      Release(key, Classify(text));
      delivered := delivered + [fire];
    }

    /** An entry leaves both tables, its name is free again, and its record is made. */
    method Release(key: string, status: Status)
      requires Valid() && key in pending
      modifies this
      ensures Valid() && Abs() == Released(old(Abs()), key, status)
    {
      var info := pending[key];
      pending := pending - {key};
      watchdogs := watchdogs - {key};
      running := running - {info.job.name};
      MakeRecord(info.job.name, info.trigger, status, Some(info.fire));
    }

    method SweepOne(key: string, now: real)
      requires Valid() && key in watchdogs
      modifies this
      ensures Valid() && Abs() == SweptKey(old(Abs()), key, now)
    {
      if now < watchdogs[key] {
        return;
      }
      if key !in pending {
        watchdogs := watchdogs - {key};
        return;
      }
      var fire := pending[key].fire;
      Release(key, Failed);
      expired := expired[key := fire];
    }

    /** `order` lists the watchdogs as they were when the sweep began. */
    method SweepWatchdogs(now: real, order: seq<string>)
      requires Valid() && Lists(order, watchdogs)
      modifies this
      ensures Valid() && Abs() == Next(old(Abs()), Step.Sweep(now, order), hard)
    {
      var i := 0;
      while i < |order|
        invariant 0 <= i <= |order| && Valid()
        invariant Swept(Abs(), order[i..], now) == Swept(old(Abs()), order, now)
      {
        assert order[i..][1..] == order[i + 1..];
        if order[i] in watchdogs {
          SweepOne(order[i], now);
        }
        i := i + 1;
      }
    }

    method RestoreRuntimeContext(key: string, job: Job, trigger: string, firedAt: real, now: real)
      requires Valid()
      modifies this
      ensures Valid() && Abs() == Next(old(Abs()), Step.Restore(key, job, trigger, firedAt, now), hard)
    {
      var instant := if 0.0 < firedAt <= now then firedAt else now;
      pending := pending[key := Info(job, trigger, instant, fires)];
      running := running + {job.name};
      watchdogs := watchdogs[key := Deadline(job, instant, hard)];
      fires := fires + 1;
      keys := keys + [key];
    }
  }

  lemma LastOfMore(log: seq<Record>, r: Record, n: int)
    ensures LastOf(LastOf(log, n) + [r], n) == LastOf(log + [r], n)
  {
    if 0 < n < |log| {
      assert (LastOf(log, n) + [r])[1..] == (log + [r])[|log| + 1 - n..];
    }
  }

  lemma TalliesMore(stats: map<string, Stats>, log: seq<Record>, r: Record)
    requires Tallies(stats, log)
    ensures Tallies(stats[r.name := CountedWith(StatsOf(stats, r.name), r, r.name)], log + [r])
  {
    assert (log + [r])[..|log|] == log;
    var more := stats[r.name := CountedWith(StatsOf(stats, r.name), r, r.name)];
    forall name ensures StatsOf(more, name) == Counted(log + [r], name) {
      assert StatsOf(stats, name) == Counted(log, name);
    }
  }

  // ---------- deadlines and classification ----------

  /** The watchdog neither bites before the agent's own hard limit can strike nor before
      the job's limit, and is the earliest instant that leaves both their grace. */
  lemma DeadlineLeast(job: Job, firedAt: real, hard: real, instant: real)
    ensures Deadline(job, firedAt, hard) <= instant <==>
      firedAt + hard + 30.0 <= instant && firedAt + JobTimeout(job) as real + 60.0 <= instant
    ensures Deadline(job, firedAt, hard) > firedAt + hard
  {
  }

  /** Without a limit of its own a job has ten minutes. */
  lemma TimeoutIs(job: Job)
    ensures JobTimeout(job) == if job.timeout != 0 then job.timeout else 10 * 60
  {
  }

  /** What a cron tick does with a job, refusals and their records included. */
  lemma TriedIs(s: State, job: Job, trigger: string, now: real, stamp: string, hard: real)
    ensures var t := Tried(s, job, trigger, now, stamp, hard);
            var refused := if job.name in s.running then Some(SkippedOverlap)
                           else if |s.running| >= s.maxConcurrent then Some(SkippedBusy)
                           else if job.capability !in {"plan", "subagent", "goal"} then Some(SkippedCapability)
                           else if job.capability == "goal" && !job.goalEnabled then Some(SkippedGoal)
                           else None;
            if refused.Some? then t == s.(log := s.log + [Record(job.name, trigger, refused.value, None)])
            else
              var key := SessionKey(job, stamp);
              && key in t.pending && t.pending[key] == Info(job, trigger, now, |s.keys|)
              && key in t.watchdogs && t.watchdogs[key] == Deadline(job, now, hard)
              && t == s.(pending := s.pending[key := t.pending[key]], running := s.running + {job.name},
                         watchdogs := s.watchdogs[key := t.watchdogs[key]], keys := s.keys + [key])
  {
  }

  /** A manual start is refused without a record, and otherwise is a fire of that name. */
  lemma ManualIs(s: State, job: Job, now: real, stamp: string, hard: real)
    ensures Next(s, Manual(job, now, stamp), hard) ==
            if job.name in s.running || |s.running| >= s.maxConcurrent then s
            else Tried(s, job, "manual", now, stamp, hard)
  {
  }

  /** A reply to a fire in flight makes its record and is passed on; a late one is passed on
      once; any other changes nothing but a stray watchdog. */
  lemma ReplyIs(s: State, key: string, text: string, hard: real)
    ensures var t := Next(s, Reply(key, text), hard);
            && key !in t.pending && key !in t.watchdogs && t.keys == s.keys && t.maxConcurrent == s.maxConcurrent
            && t.pending == s.pending - {key} && t.watchdogs == s.watchdogs - {key}
            && if key in s.pending then
                 var info := s.pending[key];
                 && t.running == s.running - {info.job.name} && t.expired == s.expired
                 && t.log == s.log + [Record(info.job.name, info.trigger, Classify(text), Some(info.fire))]
                 && t.delivered == s.delivered + [info.fire]
               else
                 && t.running == s.running && t.log == s.log && t.expired == s.expired - {key}
                 && t.delivered == s.delivered + if key in s.expired then [s.expired[key]] else []
  {
    var t := Next(s, Reply(key, text), hard);
    if key !in s.pending {
      assert s.pending - {key} == s.pending;
      assert key !in s.expired ==> s.expired - {key} == s.expired && s.delivered + [] == s.delivered;
    }
  }

  /** One watchdog of a sweep: what is due is given up, with a record, and waits for a late
      reply; a watchdog without its entry goes. */
  lemma SweptKeyIs(s: State, key: string, now: real)
    ensures var t := SweptKey(s, key, now);
            if key !in s.watchdogs || now < s.watchdogs[key] then t == s
            else
              && t.watchdogs == s.watchdogs - {key} && t.pending == s.pending - {key} && t.keys == s.keys
              && t.delivered == s.delivered
              && if key !in s.pending then t.log == s.log && t.expired == s.expired && t.running == s.running
                 else
                   var info := s.pending[key];
                   && t.log == s.log + [Record(info.job.name, info.trigger, Failed, Some(info.fire))]
                   && t.expired == s.expired[key := info.fire] && t.running == s.running - {info.job.name}
  {
    assert key !in s.pending ==> s.pending - {key} == s.pending;
  }

  /** A recovered fire keeps its instant if that lies in the past, and counts from now on
      otherwise; stopping forgets watchdogs and late replies and nothing else. */
  lemma RecoveryIs(s: State, key: string, job: Job, trigger: string, firedAt: real, now: real, hard: real)
    requires now > 0.0
    ensures var t := Next(s, Restore(key, job, trigger, firedAt, now), hard);
            && key in t.pending && t.pending[key].job == job && t.pending[key].trigger == trigger
            && 0.0 < t.pending[key].firedAt <= now
            && (t.pending[key].firedAt == firedAt <==> 0.0 < firedAt <= now)
            && (t.pending[key].firedAt != firedAt ==> t.pending[key].firedAt == now)
    ensures Next(s, Stop, hard) == s.(watchdogs := map[], expired := map[])
  {
  }

  predicate StartsBehindBlanks(text: string, mark: string) {
    exists i :: 0 <= i <= |text| && Blank(text[..i]) && mark <= text[i..]
  }

  lemma StripStarts(text: string, mark: string)
    requires mark != "" && !IsSpace(mark[0]) && !IsSpace(mark[|mark| - 1])
    ensures StartsBehindBlanks(text, mark) <==> mark <= Strip(text)
  {
    if StartsBehindBlanks(text, mark) {
      var i :| 0 <= i <= |text| && Blank(text[..i]) && mark <= text[i..];
      BlanksGone(text, i);
      RStripKeeps(text[i..], mark);
    }
    if mark <= Strip(text) {
      BlanksInFront(text, mark);
    }
  }

  lemma BlanksGone(text: string, i: nat)
    requires i < |text| && Blank(text[..i]) && !IsSpace(text[i])
    ensures LStrip(text) == text[i..]
  {
    assert text == text[..i] + text[i..];
    LStripSpaces(text[..i], text[i..]);
  }

  lemma BlanksInFront(text: string, mark: string)
    requires mark <= RStrip(LStrip(text))
    ensures StartsBehindBlanks(text, mark)
  {
    var a := LStripParts(text);
    Behind(text, a, LStrip(text), mark);
  }

  lemma Behind(text: string, a: string, b: string, mark: string)
    requires text == a + b && Blank(a) && mark <= b
    ensures StartsBehindBlanks(text, mark)
  {
    assert text[..|a|] == a && text[|a|..] == b;
  }

  lemma RStripKeeps(text: string, mark: string)
    requires mark <= text && mark != "" && !IsSpace(mark[|mark| - 1])
    ensures mark <= RStrip(text)
  {
    assert text[|mark| - 1] == mark[|mark| - 1];
  }

  lemma OneMark(s: string, a: string, b: string)
    requires a != "" && b != "" && a[0] != b[0] && a <= s
    ensures !(b <= s)
  {
  }

  /** How a reply is recorded: by the mark it begins with, blanks in front aside. */
  lemma ClassifyIs(text: string)
    ensures StartsBehindBlanks(text, "❌") ==> Classify(text) == Failed
    ensures StartsBehindBlanks(text, "⏰ 处理超时") ==> Classify(text) == TimedOut
    ensures !StartsBehindBlanks(text, "❌") && !StartsBehindBlanks(text, "⏰ 处理超时") ==> Classify(text) == Fine
  {
    StripStarts(text, "❌");
    StripStarts(text, "⏰ 处理超时");
    if "❌" <= Strip(text) {
      OneMark(Strip(text), "❌", "⏰ 处理超时");
    }
  }

  /** The statistics of a name are the numbers of its records that count as runs, and of
      those that failed. */
  function RunsAt(log: seq<Record>, name: string): set<nat> {
    set i | 0 <= i < |log| && log[i].name == name && log[i].status !in {SkippedOverlap, SkippedBusy}
  }

  function FailuresAt(log: seq<Record>, name: string): set<nat> {
    set i | 0 <= i < |log| && log[i].name == name && log[i].status in {Failed, TimedOut}
  }

  lemma {:induction false} CountedAre(log: seq<Record>, name: string)
    ensures Counted(log, name) == Stats(|RunsAt(log, name)|, |FailuresAt(log, name)|)
  {
    if log == [] {
      assert RunsAt(log, name) == {} && FailuresAt(log, name) == {};
    } else {
      var n := |log| - 1;
      CountedAre(log[..n], name);
      RunsLast(log, name);
      FailuresLast(log, name);
    }
  }

  lemma RunsLast(log: seq<Record>, name: string)
    requires log != []
    ensures var n := |log| - 1;
            |RunsAt(log, name)| == |RunsAt(log[..n], name)| +
              if log[n].name == name && log[n].status !in {SkippedOverlap, SkippedBusy} then 1 else 0
  {
    var n := |log| - 1;
    var last := if log[n].name == name && log[n].status !in {SkippedOverlap, SkippedBusy} then {n} else {};
    assert RunsAt(log, name) == RunsAt(log[..n], name) + last;
  }

  lemma FailuresLast(log: seq<Record>, name: string)
    requires log != []
    ensures var n := |log| - 1;
            |FailuresAt(log, name)| == |FailuresAt(log[..n], name)| +
              if log[n].name == name && log[n].status in {Failed, TimedOut} then 1 else 0
  {
    var n := |log| - 1;
    var last := if log[n].name == name && log[n].status in {Failed, TimedOut} then {n} else {};
    assert FailuresAt(log, name) == FailuresAt(log[..n], name) + last;
  }

  // ---------- keys ----------

  lemma {:induction false} UpToFirst(a: string, b: string)
    requires ':' !in a && (b == "" || b[0] == ':')
    ensures UpToColon(a + b) == a
  {
    if a == "" {
      assert a + b == b;
    } else {
      assert a[0] in a && (a + b)[1..] == a[1..] + b;
      UpToFirst(a[1..], b);
    }
  }

  predicate Plain(job: Job) {
    ':' !in job.name
  }

  /** A key tells the job's name when the name has no colon. */
  lemma KeyName(job: Job, stamp: string)
    requires Plain(job)
    ensures NameOf(SessionKey(job, stamp)) == job.name
  {
    var rest := if job.persist then "" else ":" + stamp;
    assert SessionKey(job, stamp) == "sched" + ":" + (job.name + rest);
    AfterPrefix("sched", job.name + rest);
    UpToFirst(job.name, rest);
  }

  /** With colons two jobs can share a key. */
  lemma KeyClash(name: string, stamp: string, capability: string)
    ensures SessionKey(Job(name + ":" + stamp, true, capability, false, 0), "") ==
            SessionKey(Job(name, false, capability, false, 0), stamp)
  {
  }

  // ---------- the invariant ----------

  function Terminals(log: seq<Record>, f: nat): nat {
    if log == [] then 0
    else Terminals(log[..|log| - 1], f) + if log[|log| - 1].fire == Some(f) then 1 else 0
  }

  lemma TerminalsMore(log: seq<Record>, r: Record, f: nat)
    ensures Terminals(log + [r], f) == Terminals(log, f) + if r.fire == Some(f) then 1 else 0
  {
    assert (log + [r])[..|log|] == log;
  }

  predicate InFlight(s: State, f: nat) {
    f < |s.keys| && s.keys[f] in s.pending && s.pending[s.keys[f]].fire == f
  }

  function Names(s: State): set<string> {
    set key | key in s.pending :: s.pending[key].job.name
  }

  predicate Watched(s: State) {
    s.watchdogs.Keys == s.pending.Keys
  }

  /** Running names and pending entries correspond one to one. */
  predicate Matched(s: State) {
    s.running == Names(s) &&
    forall k, l | k in s.pending && l in s.pending :: s.pending[k].job.name == s.pending[l].job.name ==> k == l
  }

  predicate Limited(s: State) {
    |s.running| <= s.maxConcurrent
  }

  /** Every accepted fire is in flight or has exactly one terminal record. */
  ghost predicate Ledger(s: State) {
    (forall k :: k in s.pending ==> s.pending[k].fire < |s.keys| && s.keys[s.pending[k].fire] == k) &&
    (forall f: nat :: Terminals(s.log, f) == if f < |s.keys| && !InFlight(s, f) then 1 else 0)
  }

  /** Replies are passed on at most once per fire. */
  predicate Delivery(s: State) {
    (forall i, j :: 0 <= i < j < |s.delivered| ==> s.delivered[i] != s.delivered[j]) &&
    (forall f :: f in s.delivered ==> f < |s.keys| && !InFlight(s, f)) &&
    (forall k :: k in s.expired ==>
       && s.expired[k] < |s.keys| && s.keys[s.expired[k]] == k
       && !InFlight(s, s.expired[k]) && s.expired[k] !in s.delivered)
  }

  predicate Named(s: State) {
    forall k :: k in s.pending ==> NameOf(k) == s.pending[k].job.name
  }

  ghost predicate Core(s: State) {
    Watched(s) && Matched(s) && Limited(s) && Ledger(s) && Delivery(s)
  }

  lemma FreshCore(maxConcurrent: int)
    requires maxConcurrent >= 0
    ensures Core(Fresh(maxConcurrent)) && Named(Fresh(maxConcurrent))
  {
  }

  lemma NotedCore(s: State, name: string, trigger: string, status: Status)
    requires Core(s)
    ensures Core(Noted(s, name, trigger, status))
  {
    var t := Noted(s, name, trigger, status);
    forall f: nat ensures Terminals(t.log, f) == Terminals(s.log, f) && (InFlight(t, f) <==> InFlight(s, f)) {
      TerminalsMore(s.log, Record(name, trigger, status, None), f);
    }
  }

  // ---------- entries come ----------

  lemma RegisteredFlight(s: State, key: string, job: Job, trigger: string, firedAt: real, hard: real, f: nat)
    requires Ledger(s) && key !in s.pending
    ensures InFlight(Registered(s, key, job, trigger, firedAt, hard), f) <==> f == |s.keys| || InFlight(s, f)
  {
    var t := Registered(s, key, job, trigger, firedAt, hard);
    assert forall g :: 0 <= g < |s.keys| ==> t.keys[g] == s.keys[g];
  }

  lemma RegisteredMatched(s: State, key: string, job: Job, trigger: string, firedAt: real, hard: real)
    requires Matched(s) && key !in s.pending
    ensures var t := Registered(s, key, job, trigger, firedAt, hard);
            Matched(t) <==> job.name !in s.running
  {
    var t := Registered(s, key, job, trigger, firedAt, hard);
    assert t.pending[key].job.name == job.name;
    assert forall k :: k in s.pending ==> t.pending[k] == s.pending[k];
    assert Names(t) == Names(s) + {job.name};
    if job.name in s.running {
      var k :| k in s.pending && s.pending[k].job.name == job.name;
      assert t.pending[k].job.name == t.pending[key].job.name && k != key;
    }
  }

  lemma RegisteredBooks(s: State, key: string, job: Job, trigger: string, firedAt: real, hard: real)
    requires Core(s) && key !in s.pending
    ensures var t := Registered(s, key, job, trigger, firedAt, hard);
            Watched(t) && Ledger(t) && Delivery(t)
  {
    RegisteredLedger(s, key, job, trigger, firedAt, hard);
    RegisteredDelivery(s, key, job, trigger, firedAt, hard);
  }

  lemma RegisteredLedger(s: State, key: string, job: Job, trigger: string, firedAt: real, hard: real)
    requires Core(s) && key !in s.pending
    ensures Ledger(Registered(s, key, job, trigger, firedAt, hard))
  {
    var t := Registered(s, key, job, trigger, firedAt, hard);
    forall f: nat ensures InFlight(t, f) <==> f == |s.keys| || InFlight(s, f) {
      RegisteredFlight(s, key, job, trigger, firedAt, hard, f);
    }
    forall k | k in t.pending ensures t.pending[k].fire < |t.keys| && t.keys[t.pending[k].fire] == k {}
  }

  lemma RegisteredDelivery(s: State, key: string, job: Job, trigger: string, firedAt: real, hard: real)
    requires Core(s) && key !in s.pending
    ensures Delivery(Registered(s, key, job, trigger, firedAt, hard))
  {
    var t := Registered(s, key, job, trigger, firedAt, hard);
    forall f: nat ensures InFlight(t, f) <==> f == |s.keys| || InFlight(s, f) {
      RegisteredFlight(s, key, job, trigger, firedAt, hard, f);
    }
  }

  /** An entry under a key in use hides the fire that was there. */
  lemma OverwrittenLedger(s: State, key: string, job: Job, trigger: string, firedAt: real, hard: real)
    requires Core(s) && key in s.pending
    ensures !Ledger(Registered(s, key, job, trigger, firedAt, hard))
  {
    var t, f := Registered(s, key, job, trigger, firedAt, hard), s.pending[key].fire;
    assert InFlight(s, f) && Terminals(s.log, f) == 0;
    assert t.keys[f] == key && !InFlight(t, f);
  }

  /** Registering without any check keeps the invariant exactly when the key is free, the
      name is not running and there is room: what admission checks, and the free key. */
  lemma RegisteredIff(s: State, key: string, job: Job, trigger: string, firedAt: real, hard: real)
    requires Core(s)
    ensures Core(Registered(s, key, job, trigger, firedAt, hard)) <==>
      key !in s.pending && job.name !in s.running && |s.running| < s.maxConcurrent
  {
    if key in s.pending {
      OverwrittenLedger(s, key, job, trigger, firedAt, hard);
    } else {
      RegisteredMatched(s, key, job, trigger, firedAt, hard);
      RegisteredBooks(s, key, job, trigger, firedAt, hard);
      if job.name !in s.running {
        assert |s.running + {job.name}| == |s.running| + 1;
      }
    }
  }

  /** Without colons in names, a name that is not running has no key in use. */
  lemma FreeKey(s: State, job: Job, stamp: string)
    requires Matched(s) && Named(s) && Plain(job) && job.name !in s.running
    ensures SessionKey(job, stamp) !in s.pending
  {
    KeyName(job, stamp);
    forall k | k in s.pending ensures NameOf(k) in s.running {
      EntryRuns(s, k);
    }
  }

  lemma EntryRuns(s: State, key: string)
    requires s.running == Names(s) && key in s.pending
    ensures s.pending[key].job.name in s.running
  {
  }

  lemma FiredCore(s: State, job: Job, trigger: string, now: real, stamp: string, hard: real)
    requires Core(s) && Named(s) && Plain(job) && job.name !in s.running && |s.running| < s.maxConcurrent
    ensures Core(Fired(s, job, trigger, now, stamp, hard)) && Named(Fired(s, job, trigger, now, stamp, hard))
  {
    if Runnable(job) {
      FreeKey(s, job, stamp);
      KeyName(job, stamp);
      RegisteredIff(s, SessionKey(job, stamp), job, trigger, now, hard);
    } else {
      NotedCore(s, job.name, trigger, SkippedCapability);
      NotedCore(s, job.name, trigger, SkippedGoal);
    }
  }

  // ---------- entries go ----------

  lemma ReleasedMatched(s: State, key: string, status: Status)
    requires Matched(s) && Watched(s) && key in s.pending
    ensures Matched(Released(s, key, status)) && Watched(Released(s, key, status))
  {
    var t, name := Released(s, key, status), s.pending[key].job.name;
    forall n ensures n in Names(t) <==> n in Names(s) && n != name {
      if n in Names(s) && n != name {
        var k :| k in s.pending && s.pending[k].job.name == n;
        assert k in t.pending && t.pending[k] == s.pending[k];
      }
      if n in Names(t) {
        var k :| k in t.pending && t.pending[k].job.name == n;
        assert s.pending[k].job.name == n && k != key;
      }
    }
    forall k, l | k in t.pending && l in t.pending && t.pending[k].job.name == t.pending[l].job.name ensures k == l {
      assert s.pending[k] == t.pending[k] && s.pending[l] == t.pending[l];
    }
  }

  lemma ReleasedLedger(s: State, key: string, status: Status)
    requires Ledger(s) && key in s.pending
    ensures Ledger(Released(s, key, status))
    ensures forall f: nat :: InFlight(Released(s, key, status), f) <==> InFlight(s, f) && f != s.pending[key].fire
  {
    var t, g := Released(s, key, status), s.pending[key].fire;
    forall f: nat ensures InFlight(t, f) <==> InFlight(s, f) && f != g {
    }
    var r := Record(s.pending[key].job.name, s.pending[key].trigger, status, Some(g));
    forall f: nat ensures Terminals(t.log, f) == if f < |t.keys| && !InFlight(t, f) then 1 else 0 {
      TerminalsMore(s.log, r, f);
    }
  }

  lemma ReleasedRoom(s: State, key: string, status: Status)
    requires Limited(s) && key in s.pending
    ensures Limited(Released(s, key, status))
  {
    assert s.running - {s.pending[key].job.name} <= s.running;
    SubsetSize(s.running - {s.pending[key].job.name}, s.running);
  }

  lemma {:induction false} SubsetSize(a: set<string>, b: set<string>)
    requires a <= b
    ensures |a| <= |b|
  {
    assert b == a + (b - a);
  }

  lemma RepliedCore(s: State, key: string, text: string)
    requires Core(s) && Named(s)
    ensures Core(Replied(s, key, text)) && Named(Replied(s, key, text))
  {
    if key in s.pending {
      AnsweredCore(s, key, Classify(text));
    } else {
      LateCore(s, key);
    }
  }

  /** Only the record of what was passed on, or of what expired, differs. */
  lemma SameBooks(s: State, t: State)
    requires Watched(s) && Matched(s) && Limited(s) && Ledger(s)
    requires t == s.(expired := t.expired, delivered := t.delivered)
    ensures Watched(t) && Matched(t) && Limited(t) && Ledger(t)
    ensures forall f: nat :: InFlight(t, f) <==> InFlight(s, f)
  {
    assert Names(t) == Names(s);
    forall f: nat ensures InFlight(t, f) <==> InFlight(s, f) {}
  }

  lemma ReleasedBooks(s: State, key: string, status: Status)
    requires Core(s) && Named(s) && key in s.pending
    ensures var t := Released(s, key, status);
            Watched(t) && Matched(t) && Limited(t) && Ledger(t) && Named(t)
  {
    ReleasedMatched(s, key, status);
    ReleasedLedger(s, key, status);
    ReleasedRoom(s, key, status);
  }

  lemma AnsweredCore(s: State, key: string, status: Status)
    requires Core(s) && Named(s) && key in s.pending
    ensures var t := Released(s, key, status).(delivered := s.delivered + [s.pending[key].fire]);
            Core(t) && Named(t)
  {
    var r := Released(s, key, status);
    var t := r.(delivered := s.delivered + [s.pending[key].fire]);
    ReleasedBooks(s, key, status);
    ReleasedLedger(s, key, status);
    SameBooks(r, t);
    DeliveredOne(s, t, s.pending[key].fire);
  }

  lemma LateCore(s: State, key: string)
    requires Core(s) && Named(s) && key !in s.pending
    ensures Core(Replied(s, key, "")) && Named(Replied(s, key, ""))
    ensures forall text :: Replied(s, key, text) == Replied(s, key, "")
  {
    var t := Replied(s, key, "");
    assert s.watchdogs - {key} == s.watchdogs;
    SameBooks(s, t);
    if key in s.expired {
      LateDelivered(s, t, key);
    }
  }

  lemma DeliveredOne(s: State, t: State, g: nat)
    requires Delivery(s) && InFlight(s, g) && t.keys == s.keys && t.expired == s.expired
    requires t.delivered == s.delivered + [g]
    requires forall f: nat :: InFlight(t, f) <==> InFlight(s, f) && f != g
    ensures Delivery(t)
  {
    forall f | f in t.delivered ensures f < |t.keys| && !InFlight(t, f) {
      assert f in s.delivered || f == g;
    }
    forall i | 0 <= i < |s.delivered| ensures s.delivered[i] != g {
      assert s.delivered[i] in s.delivered;
    }
    forall k | k in t.expired ensures t.expired[k] !in t.delivered {
      assert t.expired[k] != g;
    }
  }

  lemma LateDelivered(s: State, t: State, key: string)
    requires Delivery(s) && key in s.expired && t.keys == s.keys && t.expired == s.expired - {key}
    requires t.delivered == s.delivered + [s.expired[key]]
    requires forall f: nat :: InFlight(t, f) <==> InFlight(s, f)
    ensures Delivery(t)
  {
    var g := s.expired[key];
    forall f | f in t.delivered ensures f < |t.keys| && !InFlight(t, f) {
      assert f in s.delivered || f == g;
    }
    forall i | 0 <= i < |s.delivered| ensures s.delivered[i] != g {
      assert s.delivered[i] in s.delivered;
    }
    forall k | k in t.expired ensures t.expired[k] !in t.delivered {
      assert s.keys[s.expired[k]] == k && k != key;
    }
  }

  lemma ExpiredDelivery(s: State, t: State, key: string)
    requires Delivery(s) && Ledger(s) && key in s.pending && InFlight(s, s.pending[key].fire)
    requires t.keys == s.keys && t.delivered == s.delivered && t.expired == s.expired[key := s.pending[key].fire]
    requires forall f: nat :: InFlight(t, f) <==> InFlight(s, f) && f != s.pending[key].fire
    ensures Delivery(t)
  {
  }

  lemma SweptKeyCore(s: State, key: string, now: real)
    requires Core(s) && Named(s)
    ensures Core(SweptKey(s, key, now)) && Named(SweptKey(s, key, now))
  {
    if key in s.watchdogs && now >= s.watchdogs[key] {
      var t, r := SweptKey(s, key, now), Released(s, key, Failed);
      ReleasedBooks(s, key, Failed);
      ReleasedLedger(s, key, Failed);
      SameBooks(r, t);
      ExpiredDelivery(s, t, key);
    }
  }

  lemma {:induction false} SweptCore(s: State, order: seq<string>, now: real)
    requires Core(s) && Named(s)
    ensures Core(Swept(s, order, now)) && Named(Swept(s, order, now))
    decreases |order|
  {
    if order != [] {
      SweptKeyCore(s, order[0], now);
      SweptCore(SweptKey(s, order[0], now), order[1..], now);
    }
  }

  // ---------- runs ----------

  /** No recovery, no lowered limit, no stop, and names without colons. */
  predicate Regular(s: State, step: Step) {
    match step
    case TryFire(job, _, _, _) => Plain(job)
    case Manual(job, _, _) => Plain(job)
    case Reply(_, _) => true
    case Sweep(_, _) => true
    case Restore(_, _, _, _, _) => false
    case Reload(n) => n >= s.maxConcurrent
    case Stop => false
  }

  lemma StepCore(s: State, step: Step, hard: real)
    requires Core(s) && Named(s) && Enabled(s, step) && Regular(s, step)
    ensures Core(Next(s, step, hard)) && Named(Next(s, step, hard))
  {
    match step {
      case TryFire(job, trigger, now, stamp) =>
        if job.name in s.running || |s.running| >= s.maxConcurrent {
          NotedCore(s, job.name, trigger, SkippedOverlap);
          NotedCore(s, job.name, trigger, SkippedBusy);
        } else {
          FiredCore(s, job, trigger, now, stamp, hard);
        }
      case Manual(job, now, stamp) =>
        if job.name !in s.running && |s.running| < s.maxConcurrent {
          FiredCore(s, job, "manual", now, stamp, hard);
        }
      case Reply(key, text) => RepliedCore(s, key, text);
      case Sweep(now, order) => SweptCore(s, order, now);
      case Reload(n) =>
        var t := Next(s, step, hard);
        assert forall f: nat :: InFlight(t, f) <==> InFlight(s, f);
      case _ =>
    }
  }

  ghost predicate Trace(s: State, steps: seq<Step>, hard: real, t: State)
    decreases |steps|
  {
    if steps == [] then s == t else Enabled(s, steps[0]) && Trace(Next(s, steps[0], hard), steps[1..], hard, t)
  }

  ghost predicate RegularTrace(s: State, steps: seq<Step>, hard: real)
    decreases |steps|
  {
    steps != [] ==> Regular(s, steps[0]) && RegularTrace(Next(s, steps[0], hard), steps[1..], hard)
  }

  lemma {:induction false} TraceCore(s: State, steps: seq<Step>, hard: real, t: State)
    requires Core(s) && Named(s) && Trace(s, steps, hard, t) && RegularTrace(s, steps, hard)
    ensures Core(t) && Named(t)
    decreases |steps|
  {
    if steps != [] {
      StepCore(s, steps[0], hard);
      TraceCore(Next(s, steps[0], hard), steps[1..], hard, t);
    }
  }

  /** In every regular run: no job is in flight twice, at most `maxConcurrent` run, each
      entry has its watchdog, and each accepted fire is in flight or has one record. */
  lemma RegularRun(maxConcurrent: int, steps: seq<Step>, hard: real, t: State)
    requires maxConcurrent >= 0
    requires Trace(Fresh(maxConcurrent), steps, hard, t) && RegularTrace(Fresh(maxConcurrent), steps, hard)
    ensures Watched(t) && Matched(t) && |t.running| <= t.maxConcurrent
    ensures forall f :: 0 <= f < |t.keys| ==> (InFlight(t, f) <==> Terminals(t.log, f) == 0) && Terminals(t.log, f) <= 1
    ensures forall i, j :: 0 <= i < j < |t.delivered| ==> t.delivered[i] != t.delivered[j]
  {
    FreshCore(maxConcurrent);
    TraceCore(Fresh(maxConcurrent), steps, hard, t);
  }

  // ---------- watchdogs ----------

  lemma {:induction false} SweptRest(s: State, order: seq<string>, now: real)
    requires Watched(s)
    ensures Watched(Swept(s, order, now))
    ensures forall k :: k in Swept(s, order, now).watchdogs <==>
      k in s.watchdogs && (k in order ==> now < s.watchdogs[k])
    ensures forall k :: k in Swept(s, order, now).watchdogs ==> Swept(s, order, now).watchdogs[k] == s.watchdogs[k]
    decreases |order|
  {
    if order != [] {
      SweptRest(SweptKey(s, order[0], now), order[1..], now);
      assert order == [order[0]] + order[1..];
    }
  }

  /** The first sweep at or after a deadline releases the entry and its name; entries whose
      deadline has not come stay. */
  lemma SweepReleases(s: State, now: real, order: seq<string>, hard: real)
    requires Core(s) && Named(s) && Lists(order, s.watchdogs)
    ensures var t := Next(s, Sweep(now, order), hard);
            && Core(t)
            && (forall k :: k in t.pending <==> k in s.pending && now < s.watchdogs[k])
            && (forall k :: k in s.pending && s.watchdogs[k] <= now ==>
                  s.pending[k].job.name !in t.running && Terminals(t.log, s.pending[k].fire) == 1)
  {
    var t := Swept(s, order, now);
    SweptCore(s, order, now);
    SweptRest(s, order, now);
    SweptKeys(s, order, now);
    forall k | k in s.pending && s.watchdogs[k] <= now
      ensures s.pending[k].job.name !in t.running && Terminals(t.log, s.pending[k].fire) == 1
    {
      NameFreed(s, t, k);
    }
  }

  lemma NameFreed(s: State, t: State, k: string)
    requires Core(s) && Core(t) && k in s.pending && k !in t.pending && t.keys == s.keys
    requires forall l :: l in t.pending ==> l in s.pending && t.pending[l] == s.pending[l]
    ensures s.pending[k].job.name !in t.running && Terminals(t.log, s.pending[k].fire) == 1
  {
    forall l | l in t.pending ensures t.pending[l].job.name != s.pending[k].job.name {
      assert s.pending[l] == t.pending[l] && l != k;
    }
  }

  lemma {:induction false} SweptKeys(s: State, order: seq<string>, now: real)
    ensures Swept(s, order, now).keys == s.keys
    ensures forall k :: k in Swept(s, order, now).pending ==>
      k in s.pending && Swept(s, order, now).pending[k] == s.pending[k]
    decreases |order|
  {
    if order != [] {
      SweptKeys(SweptKey(s, order[0], now), order[1..], now);
    }
  }

  // ---------- irregular steps ----------

  /** A new limit keeps the invariant exactly when no more than that many jobs run. */
  lemma ReloadIff(s: State, n: int, hard: real)
    requires Core(s)
    ensures Core(Next(s, Reload(n), hard)) <==> |s.running| <= n
  {
    var t := Next(s, Reload(n), hard);
    assert forall f: nat :: InFlight(t, f) <==> InFlight(s, f);
  }

  /** Stopping drops the watchdogs, not the entries they guard. */
  lemma StopIff(s: State, hard: real)
    requires Core(s)
    ensures Core(Next(s, Stop, hard)) <==> s.pending == map[]
  {
    var t := Next(s, Stop, hard);
    assert forall f: nat :: InFlight(t, f) <==> InFlight(s, f);
    if s.pending != map[] {
      var k :| k in s.pending;
      assert k in t.pending && k !in t.watchdogs;
    }
  }

  /** Recovery after a restart checks neither overlap nor room. */
  lemma RestoreIff(s: State, key: string, job: Job, trigger: string, firedAt: real, now: real, hard: real)
    requires Core(s)
    ensures Core(Next(s, Restore(key, job, trigger, firedAt, now), hard)) <==>
      key !in s.pending && job.name !in s.running && |s.running| < s.maxConcurrent
  {
    RegisteredIff(s, key, job, trigger, SaneInstant(firedAt, now), hard);
  }

  /** What survives recovery too: every entry is watched, and every running name has an
      entry, so that some sweep releases it. */
  predicate Weak(s: State) {
    Watched(s) && Named(s) && s.running <= Names(s)
  }

  predicate WeakRegular(step: Step) {
    match step
    case TryFire(job, _, _, _) => Plain(job)
    case Manual(job, _, _) => Plain(job)
    case Restore(key, job, _, _, _) => NameOf(key) == job.name
    case Stop => false
    case _ => true
  }

  lemma RegisteredWeak(s: State, key: string, job: Job, trigger: string, firedAt: real, hard: real)
    requires Weak(s) && NameOf(key) == job.name
    ensures Weak(Registered(s, key, job, trigger, firedAt, hard))
  {
    var t := Registered(s, key, job, trigger, firedAt, hard);
    forall n | n in t.running ensures n in Names(t) {
      if n == job.name {
        assert t.pending[key].job.name == n;
      } else {
        var k :| k in s.pending && s.pending[k].job.name == n;
        assert k != key && t.pending[k] == s.pending[k];
      }
    }
  }

  lemma ReleasedWeak(s: State, key: string, status: Status)
    requires Weak(s) && key in s.pending
    ensures Weak(Released(s, key, status))
  {
    var t := Released(s, key, status);
    forall n | n in t.running ensures n in Names(t) {
      var k :| k in s.pending && s.pending[k].job.name == n;
      assert k != key && t.pending[k] == s.pending[k];
    }
  }

  lemma {:induction false} SweptWeak(s: State, order: seq<string>, now: real)
    requires Weak(s)
    ensures Weak(Swept(s, order, now))
    decreases |order|
  {
    if order != [] {
      var u := SweptKey(s, order[0], now);
      if order[0] in s.watchdogs && now >= s.watchdogs[order[0]] {
        ReleasedWeak(s, order[0], Failed);
        assert Names(u) == Names(Released(s, order[0], Failed));
      }
      SweptWeak(u, order[1..], now);
    }
  }

  lemma SameEntriesWeak(s: State, t: State)
    requires Weak(s) && t.pending == s.pending && t.running == s.running && t.watchdogs == s.watchdogs
    ensures Weak(t)
  {
    assert Names(t) == Names(s);
  }

  lemma FiredWeak(s: State, job: Job, trigger: string, now: real, stamp: string, hard: real)
    requires Weak(s) && Plain(job)
    ensures Weak(Fired(s, job, trigger, now, stamp, hard)) && Weak(Tried(s, job, trigger, now, stamp, hard))
  {
    KeyName(job, stamp);
    RegisteredWeak(s, SessionKey(job, stamp), job, trigger, now, hard);
    forall status ensures Weak(Noted(s, job.name, trigger, status)) {
      SameEntriesWeak(s, Noted(s, job.name, trigger, status));
    }
  }

  lemma RepliedWeak(s: State, key: string, text: string)
    requires Weak(s)
    ensures Weak(Replied(s, key, text))
  {
    var t := Replied(s, key, text);
    if key in s.pending {
      ReleasedWeak(s, key, Classify(text));
      SameEntriesWeak(Released(s, key, Classify(text)), t);
    } else {
      assert s.watchdogs - {key} == s.watchdogs;
      SameEntriesWeak(s, t);
    }
  }

  lemma StepWeak(s: State, step: Step, hard: real)
    requires Weak(s) && WeakRegular(step)
    ensures Weak(Next(s, step, hard))
  {
    match step {
      case TryFire(job, trigger, now, stamp) => FiredWeak(s, job, trigger, now, stamp, hard);
      case Manual(job, now, stamp) => FiredWeak(s, job, "manual", now, stamp, hard);
      case Reply(key, text) => RepliedWeak(s, key, text);
      case Sweep(now, order) => SweptWeak(s, order, now);
      case Restore(key, job, trigger, firedAt, now) =>
        RegisteredWeak(s, key, job, trigger, SaneInstant(firedAt, now), hard);
      case Reload(n) => SameEntriesWeak(s, s.(maxConcurrent := n));
      case Stop =>
    }
  }

  ghost predicate WeakTrace(s: State, steps: seq<Step>, hard: real, t: State)
    decreases |steps|
  {
    if steps == [] then s == t
    else Enabled(s, steps[0]) && WeakRegular(steps[0]) && WeakTrace(Next(s, steps[0], hard), steps[1..], hard, t)
  }

  /** With recoveries and lowered limits anywhere in the run, a sweep after the last deadline
      still leaves nothing pending and nothing running. */
  lemma {:induction false} RecoveredRunDrains(s: State, steps: seq<Step>, hard: real, t: State, now: real,
                                              order: seq<string>)
    requires Weak(s) && WeakTrace(s, steps, hard, t)
    requires Lists(order, t.watchdogs) && forall k :: k in t.watchdogs ==> t.watchdogs[k] <= now
    ensures Weak(t)
    ensures Next(t, Sweep(now, order), hard).pending == map[] && Next(t, Sweep(now, order), hard).running == {}
    decreases |steps|
  {
    if steps != [] {
      StepWeak(s, steps[0], hard);
      RecoveredRunDrains(Next(s, steps[0], hard), steps[1..], hard, t, now, order);
    } else {
      var u := Swept(t, order, now);
      SweptWeak(t, order, now);
      SweptRest(t, order, now);
      assert u.pending.Keys == {};
      assert Names(u) == {};
    }
  }

  // ---------- what can go wrong ----------

  /** Two recovered entries of one job: the reply to the first frees the name while the
      second is still in flight, and the job can be fired again beside it. */
  lemma RestoreOverlaps(job: Job, k: string, l: string, text: string, hard: real) returns (s: State)
    requires Runnable(job) && Plain(job) && NameOf(k) == job.name && NameOf(l) == job.name && k != l
    ensures Trace(Fresh(1), [Restore(k, job, "recovered", 1.0, 2.0), Restore(l, job, "recovered", 1.0, 2.0),
                             Reply(k, text)], hard, s)
    ensures l in s.pending && s.pending[l].job == job && job.name !in s.running && |s.running| < s.maxConcurrent
  {
    var steps := [Restore(k, job, "recovered", 1.0, 2.0), Restore(l, job, "recovered", 1.0, 2.0), Reply(k, text)];
    var s1 := Next(Fresh(1), steps[0], hard);
    var s2 := Next(s1, steps[1], hard);
    s := Next(s2, steps[2], hard);
    ThreeSteps(Fresh(1), s1, s2, s, steps, hard);
    assert s.running == {};
  }

  lemma ThreeSteps(s: State, s1: State, s2: State, t: State, steps: seq<Step>, hard: real)
    requires |steps| == 3 && Enabled(s, steps[0]) && Enabled(s1, steps[1]) && Enabled(s2, steps[2])
    requires Next(s, steps[0], hard) == s1 && Next(s1, steps[1], hard) == s2 && Next(s2, steps[2], hard) == t
    ensures Trace(s, steps, hard, t)
  {
    var last := steps[1..][1..];
    assert last[0] == steps[2] && last[1..] == [];
    assert Trace(t, last[1..], hard, t);
    assert Trace(s2, last, hard, t);
    assert steps[1..][0] == steps[1];
    assert Trace(s1, steps[1..], hard, t);
  }

  /** The fire to which a reply under this key is credited. */
  function Credited(s: State, key: string): Option<nat> {
    if key in s.pending then Some(s.pending[key].fire)
    else if key in s.expired then Some(s.expired[key])
    else None
  }

  /** A fire given up by its watchdog whose late reply is still awaited. */
  predicate AwaitsLate(s: State, f: nat) {
    f < |s.keys| && s.keys[f] in s.expired && s.expired[s.keys[f]] == f
  }

  /** A reply names only its session key.  The reply to fire f is credited to another fire
      exactly when another fire of that key is in flight, or one is awaited late while f is
      not in flight itself. */
  lemma MiscreditIff(s: State, f: nat)
    requires Core(s) && f < |s.keys|
    ensures (exists g: nat :: g != f && Credited(s, s.keys[f]) == Some(g)) <==>
            exists g: nat :: g != f && g < |s.keys| && s.keys[g] == s.keys[f] &&
              (InFlight(s, g) || (AwaitsLate(s, g) && !InFlight(s, f)))
  {
    var key := s.keys[f];
    if key in s.pending {
      assert InFlight(s, s.pending[key].fire);
    } else if key in s.expired {
      assert AwaitsLate(s, s.expired[key]);
    }
    if g: nat :| g != f && g < |s.keys| && s.keys[g] == key &&
                 (InFlight(s, g) || (AwaitsLate(s, g) && !InFlight(s, f))) {
      assert key in s.pending || key in s.expired;
      var h := if key in s.pending then s.pending[key].fire else s.expired[key];
      assert Credited(s, key) == Some(h) && h != f;
    }
  }

  /** The fire in flight under a key is its latest one, and so is the one awaited late
      among those that are unanswered and not in flight. */
  ghost predicate Latest(s: State) {
    forall f: nat :: f < |s.keys| ==>
      && (s.keys[f] in s.pending ==> f <= s.pending[s.keys[f]].fire)
      && (s.keys[f] in s.expired && f !in s.delivered && !InFlight(s, f) ==> f <= s.expired[s.keys[f]])
  }

  lemma RegisteredLatest(s: State, key: string, job: Job, trigger: string, firedAt: real, hard: real)
    requires Core(s) && Latest(s) && key !in s.pending
    ensures Latest(Registered(s, key, job, trigger, firedAt, hard))
  {
    var t := Registered(s, key, job, trigger, firedAt, hard);
    forall f: nat | f < |t.keys|
      ensures t.keys[f] in t.pending ==> f <= t.pending[t.keys[f]].fire
      ensures t.keys[f] in t.expired && f !in t.delivered && !InFlight(t, f) ==> f <= t.expired[t.keys[f]]
    {
      RegisteredFlight(s, key, job, trigger, firedAt, hard, f);
      assert f < |s.keys| ==> t.keys[f] == s.keys[f];
    }
  }

  lemma FiredLatest(s: State, job: Job, trigger: string, now: real, stamp: string, hard: real)
    requires Core(s) && Named(s) && Latest(s) && Plain(job) && job.name !in s.running
    ensures Latest(Fired(s, job, trigger, now, stamp, hard))
  {
    if Runnable(job) {
      FreeKey(s, job, stamp);
      RegisteredLatest(s, SessionKey(job, stamp), job, trigger, now, hard);
    } else {
      NotedLatest(s, job.name, trigger, SkippedCapability);
      NotedLatest(s, job.name, trigger, SkippedGoal);
    }
  }

  lemma NotedLatest(s: State, name: string, trigger: string, status: Status)
    requires Latest(s)
    ensures Latest(Noted(s, name, trigger, status))
  {
    var t := Noted(s, name, trigger, status);
    assert forall f: nat :: InFlight(t, f) <==> InFlight(s, f);
  }

  lemma RepliedLatest(s: State, key: string, text: string)
    requires Core(s) && Latest(s)
    ensures Latest(Replied(s, key, text))
  {
    var t := Replied(s, key, text);
    if key in s.pending {
      ReleasedLedger(s, key, Classify(text));
      var g := s.pending[key].fire;
      assert g in t.delivered by { assert t.delivered[|s.delivered|] == g; }
      assert forall f: nat :: InFlight(t, f) <==> InFlight(Released(s, key, Classify(text)), f);
    } else {
      assert forall f: nat :: InFlight(t, f) <==> InFlight(s, f);
    }
    assert forall f :: f in s.delivered ==> f in t.delivered;
  }

  lemma SweptKeyLatest(s: State, key: string, now: real)
    requires Core(s) && Latest(s)
    ensures Latest(SweptKey(s, key, now))
  {
    var t := SweptKey(s, key, now);
    if key in s.watchdogs && now >= s.watchdogs[key] {
      ReleasedLedger(s, key, Failed);
      assert forall f: nat :: InFlight(t, f) <==> InFlight(Released(s, key, Failed), f);
    }
  }

  lemma {:induction false} SweptLatest(s: State, order: seq<string>, now: real)
    requires Core(s) && Named(s) && Latest(s)
    ensures Latest(Swept(s, order, now))
    decreases |order|
  {
    if order != [] {
      SweptKeyCore(s, order[0], now);
      SweptKeyLatest(s, order[0], now);
      SweptLatest(SweptKey(s, order[0], now), order[1..], now);
    }
  }

  lemma StepLatest(s: State, step: Step, hard: real)
    requires Core(s) && Named(s) && Latest(s) && Regular(s, step)
    ensures Latest(Next(s, step, hard))
  {
    match step {
      case TryFire(job, trigger, now, stamp) =>
        NotedLatest(s, job.name, trigger, SkippedOverlap);
        NotedLatest(s, job.name, trigger, SkippedBusy);
        if job.name !in s.running {
          FiredLatest(s, job, trigger, now, stamp, hard);
        }
      case Manual(job, now, stamp) =>
        if job.name !in s.running {
          FiredLatest(s, job, "manual", now, stamp, hard);
        }
      case Reply(key, text) => RepliedLatest(s, key, text);
      case Sweep(now, order) => SweptLatest(s, order, now);
      case Reload(n) =>
        var t := Next(s, step, hard);
        assert forall f: nat :: InFlight(t, f) <==> InFlight(s, f);
      case _ =>
    }
  }

  lemma {:induction false} TraceLatest(s: State, steps: seq<Step>, hard: real, t: State)
    requires Core(s) && Named(s) && Latest(s) && Trace(s, steps, hard, t) && RegularTrace(s, steps, hard)
    ensures Core(t) && Latest(t)
    decreases |steps|
  {
    if steps != [] {
      StepCore(s, steps[0], hard);
      StepLatest(s, steps[0], hard);
      TraceLatest(Next(s, steps[0], hard), steps[1..], hard, t);
    }
  }

  /** In every regular run only a later fire of the same key can take the reply to a fire
      that is unanswered. */
  lemma MiscreditLater(maxConcurrent: int, steps: seq<Step>, hard: real, t: State, f: nat, g: nat)
    requires maxConcurrent >= 0
    requires Trace(Fresh(maxConcurrent), steps, hard, t) && RegularTrace(Fresh(maxConcurrent), steps, hard)
    requires f < |t.keys| && f !in t.delivered && Credited(t, t.keys[f]) == Some(g) && g != f
    ensures f < g < |t.keys| && t.keys[g] == t.keys[f]
  {
    FreshCore(maxConcurrent);
    TraceLatest(Fresh(maxConcurrent), steps, hard, t);
  }

  /** A persistent job uses one key for ever: fired again after its watchdog, its late
      reply ends the new fire. */
  lemma LateReplyTaken(job: Job, first: real, second: real, text: string, hard: real)
    returns (steps: seq<Step>, s: State)
    requires Runnable(job) && Plain(job) && job.persist
    ensures Trace(Fresh(1), steps, hard, s)
    ensures |s.keys| == 2 && s.keys[0] == s.keys[1] && Credited(s, s.keys[0]) == Some(1)
    ensures s.log == [Record(job.name, "cron", Failed, Some(0))]
    ensures Next(s, Reply(s.keys[0], text), hard).log == s.log + [Record(job.name, "cron", Classify(text), Some(1))]
  {
    var key := SessionKey(job, "");
    var due := Deadline(job, first, hard);
    steps := [TryFire(job, "cron", first, ""), Sweep(due, [key]), TryFire(job, "cron", second, "")];
    var s1 := Next(Fresh(1), steps[0], hard);
    assert s1.watchdogs == map[key := due];
    var s2 := Next(s1, steps[1], hard);
    assert [key][1..] == [];
    assert Swept(s1, [key], due) == SweptKey(s1, key, due);
    assert s2.running == {};
    s := Next(s2, steps[2], hard);
    ThreeSteps(Fresh(1), s1, s2, s, steps, hard);
  }
}
