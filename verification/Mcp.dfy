/** Correlating JSON-RPC requests and responses: `MCPConnection` (core/mcp_client.py).
    The coroutines of one connection are cut at their awaits; each piece is one step. */
module Mcp {
  import opened Text

  // ---------- messages ----------

  datatype JsonId = NullId | BoolId(b: bool) | IntId(n: int) | FloatId(x: real) | StrId(s: string) | CompoundId

  /** What a line from the server turns out to be.  `isRequest` says that it
      names a method. */
  datatype Inbound = BadJson | NotObject | Message(id: Option<JsonId>, isRequest: bool)

  /** The id finds the table entry of request n: numbers and truth values are equal keys
      when their values are equal, a string never is. */
  predicate Names(id: JsonId, n: nat) {
    match id
    case IntId(k) => k == n
    case BoolId(b) => n == if b then 1 else 0
    case FloatId(x) => x == n as real
    case _ => false
  }

  predicate Bears(m: Inbound, n: nat) {
    m.Message? && m.id.Some? && Names(m.id.value, n)
  }

  /** The receive loop does not survive these. */
  predicate Fatal(m: Inbound) {
    m.NotObject? || (m.Message? && m.id == Some(CompoundId))
  }

  /** A message with an id that is no response (sections 4 and 5 of JSON-RPC 2.0). */
  predicate ServerRequest(m: Inbound) {
    m.Message? && m.id.Some? && m.isRequest
  }

  // ---------- the connection ----------

  /** The future a caller waits for; a result is the position of its message in the inbox. */
  datatype Future = Waiting | Result(at: nat) | Broken | Cancelled

  datatype Outcome = Reply(at: nat) | Error | Abandoned

  /** One request: how much had arrived when it was issued, its future, and what its caller got. */
  datatype Call = Call(issuedAt: nat, future: Future, outcome: Option<Outcome>)

  /** How far a call of `initialize` has come. */
  datatype Handshake = Connecting | Awaiting(n: nat) | Confirming

  datatype State = State(
    lastId: nat,
    pending: set<nat>,
    calls: map<nat, Call>,
    inbox: seq<Inbound>,
    loops: nat,               // receive loops still running
    initialized: bool,
    handshakes: map<nat, Handshake>)

  const FRESH := State(0, {}, map[], [], 0, false, map[])

  datatype Step =
    | Request
    | Resume(n: nat)                      // the caller is given its finished future
    | Timeout(n: nat)
    | SendFails(n: nat)
    | Abandon(n: nat, sent: bool)         // the calling task itself is cancelled
    | Receive(m: Inbound)
    | LoopExit                            // end of stream, read error or cancellation
    | CloseBegin | CloseEnd
    | BeginInit(h: nat)
    | Connected(h: nat)
    | Confirm(h: nat)                     // its reply is there: send the notification
    | InitDone(h: nat)
    | DropInit(h: nat)

  predicate Unanswered(s: State, n: nat) {
    n in s.calls && s.calls[n].outcome.None?
  }

  predicate Enabled(s: State, step: Step) {
    match step
    case Request => s.initialized
    case Resume(n) => Unanswered(s, n) && (s.calls[n].future.Result? || s.calls[n].future.Broken?)
    case Timeout(n) => Unanswered(s, n)
    case SendFails(n) => Unanswered(s, n)
    case Abandon(n, _) => Unanswered(s, n)
    case Receive(_) => s.loops > 0
    case LoopExit => s.loops > 0
    case CloseBegin => true
    case CloseEnd => true
    case BeginInit(h) => !s.initialized && h !in s.handshakes
    case Connected(h) => h in s.handshakes && s.handshakes[h].Connecting?
    case Confirm(h) =>
      h in s.handshakes && s.handshakes[h].Awaiting? &&
      var n := s.handshakes[h].n;
      n in s.calls && s.calls[n].outcome.Some? && s.calls[n].outcome.value.Reply?
    case InitDone(h) => h in s.handshakes && s.handshakes[h].Confirming?
    case DropInit(h) => h in s.handshakes
  }

  function Issued(s: State): State {
    var n := s.lastId + 1;
    s.(lastId := n, pending := s.pending + {n}, calls := s.calls[n := Call(|s.inbox|, Waiting, None)])
  }

  function Stopped(f: Future): Future {
    if f.Waiting? then Cancelled else f
  }

  function Answered(s: State, n: nat, future: Future, outcome: Outcome): State
    requires n in s.calls
  {
    s.(calls := s.calls[n := s.calls[n].(future := future, outcome := Some(outcome))])
  }

  function Break(c: Call): Call {
    if c.future.Waiting? then c.(future := Broken) else c
  }

  function FailedCalls(calls: map<nat, Call>, pending: set<nat>): (r: map<nat, Call>)
    ensures r.Keys == calls.Keys
  {
    map n | n in calls :: if n in pending then Break(calls[n]) else calls[n]
  }

  function Failed(s: State): State {
    s.(calls := FailedCalls(s.calls, s.pending), pending := {})
  }

  function Exited(s: State): State
    requires s.loops > 0
  {
    Failed(s).(loops := s.loops - 1, initialized := false)
  }

  /** The request that a message is matched with. */
  function Target(m: Inbound, pending: set<nat>): (r: Option<nat>)
    ensures r.Some? ==> r.value in pending && Bears(m, r.value)
    ensures r.None? ==> forall n :: n in pending ==> !Bears(m, n)
  {
    if !(m.Message? && m.id.Some?) then None
    else match m.id.value
      case IntId(k) => if k >= 0 && k in pending then Some(k) else None
      case BoolId(b) => var n := if b then 1 else 0; if n in pending then Some(n) else None
      case FloatId(x) =>
        var k := x.Floor;
        if k >= 0 && k as real == x && k in pending then Some(k) else None
      case _ => None
  }

  function Delivered(s: State, m: Inbound): State {
    var t := s.(inbox := s.inbox + [m]);
    match Target(m, s.pending)
    case None => t
    case Some(n) =>
      var rest := t.(pending := t.pending - {n});
      if n in s.calls && s.calls[n].future.Waiting?
      then rest.(calls := s.calls[n := s.calls[n].(future := Result(|s.inbox|))])
      else rest
  }

  function Next(s: State, step: Step): State
    requires Enabled(s, step)
  {
    match step
    case Request => Issued(s)
    case Resume(n) =>
      var f := s.calls[n].future;
      if f.Result? then Answered(s, n, f, Reply(f.at)) else Answered(s, n, f, Error).(pending := s.pending - {n})
    case Timeout(n) => Answered(s, n, Stopped(s.calls[n].future), Error).(pending := s.pending - {n})
    case SendFails(n) => Answered(s, n, s.calls[n].future, Error).(pending := s.pending - {n})
    case Abandon(n, sent) =>
      Answered(s, n, if sent then Stopped(s.calls[n].future) else s.calls[n].future, Abandoned)
    case Receive(m) => if Fatal(m) then Exited(s.(inbox := s.inbox + [m])) else Delivered(s, m)
    case LoopExit => Exited(s)
    case CloseBegin => s.(initialized := false)
    case CloseEnd => Failed(s)
    case BeginInit(h) => s.(handshakes := s.handshakes[h := Connecting])
    case Connected(h) =>
      Issued(s).(loops := s.loops + 1, handshakes := s.handshakes[h := Awaiting(s.lastId + 1)])
    case Confirm(h) => s.(handshakes := s.handshakes[h := Confirming])
    case InitDone(h) => s.(initialized := true, handshakes := s.handshakes - {h})
    case DropInit(h) => s.(handshakes := s.handshakes - {h})
  }

  // ---------- the code ----------

  /** The tables of a connection; `inbox` and `handshakes` record what a reader of the run sees. */
  class MCPConnection {
    var requestId: nat
    var pending: set<nat>
    var calls: map<nat, Call>
    var loops: nat
    var initialized: bool
    ghost var inbox: seq<Inbound>
    ghost var handshakes: map<nat, Handshake>
    var received: nat

    ghost function Abs(): State
      reads this
    {
      State(requestId, pending, calls, inbox, loops, initialized, handshakes)
    }

    ghost predicate Valid()
      reads this
    {
      received == |inbox| && pending <= calls.Keys
    }

    constructor ()
      ensures Valid() && Abs() == FRESH
    {
      requestId, pending, calls, loops, initialized, received := 0, {}, map[], 0, false, 0;
      inbox, handshakes := [], map[];
    }

    /** The part of `_send_request` before its first await. */
    method Register() returns (id: nat)
      requires Valid()
      modifies this
      ensures Valid() && Abs() == Issued(old(Abs())) && id == old(requestId) + 1
    {
      requestId := requestId + 1;
      id := requestId;
      calls := calls[id := Call(received, Waiting, None)];
      pending := pending + {id};
    }

    method OnTimeout(n: nat)
      requires Valid() && Enabled(Abs(), Timeout(n))
      modifies this
      ensures Valid() && Abs() == Next(old(Abs()), Timeout(n))
    {
      var future := if calls[n].future.Waiting? then Cancelled else calls[n].future;
      calls := calls[n := calls[n].(future := future, outcome := Some(Error))];
      pending := pending - {n};
    }

    method FailPending()
      requires Valid()
      modifies this
      ensures Valid() && Abs() == Failed(old(Abs()))
    {
      var left, told := pending, calls;
      while left != {}
        invariant left <= pending && told == FailedCalls(calls, pending - left)
        decreases |left|
        modifies {}
      {
        var n :| n in left;
        FailMore(calls, pending - left, n);
        if told[n].future.Waiting? {
          told := told[n := told[n].(future := Broken)];
        }
        assert pending - (left - {n}) == (pending - left) + {n};
        left := left - {n};
      }
      assert pending - left == pending;
      calls, pending := told, {};
    }

    /** The body of the receive loop for one message; false means the loop has ended. */
    method OnMessage(m: Inbound) returns (alive: bool)
      requires Valid() && loops > 0
      modifies this
      ensures Valid() && Abs() == Next(old(Abs()), Receive(m)) && (alive <==> !Fatal(m))
    {
      inbox := inbox + [m];
      received := received + 1;
      if m.NotObject? || (m.Message? && m.id == Some(CompoundId)) {
        OnLoopExit();
        return false;
      }
      alive := true;
      if m.Message? && m.id.Some? {
        var target := Target(m, pending);
        if target.Some? {
          var n := target.value;
          pending := pending - {n};
          if calls[n].future.Waiting? {
            calls := calls[n := calls[n].(future := Result(received - 1))];
          }
        }
      }
    }

    /** The `finally` of the receive loop. */
    method OnLoopExit()
      requires Valid() && loops > 0
      modifies this
      ensures Valid() && Abs() == Exited(old(Abs()))
    {
      if pending != {} {
        FailPending();
      } else {
        assert FailedCalls(calls, pending) == calls;
      }
      initialized := false;
      loops := loops - 1;
    }
  }

  lemma FailMore(calls: map<nat, Call>, done: set<nat>, n: nat)
    requires n in calls && n !in done
    ensures FailedCalls(calls, done)[n] == calls[n]
    ensures FailedCalls(calls, done + {n}) == FailedCalls(calls, done)[n := Break(calls[n])]
  {
  }

  // ---------- safety ----------

  /** No message that arrived since the request was issued bears its id. */
  predicate Unseen(s: State, n: nat, until: nat)
    requires n in s.calls && until <= |s.inbox|
  {
    forall j :: s.calls[n].issuedAt <= j < until ==> !Bears(s.inbox[j], n)
  }

  predicate CallInv(s: State, n: nat)
    requires n in s.calls
  {
    var c := s.calls[n];
    && c.issuedAt <= |s.inbox|
    && (c.future.Result? ==>
          n !in s.pending && c.issuedAt <= c.future.at < |s.inbox| &&
          Bears(s.inbox[c.future.at], n) && Unseen(s, n, c.future.at))
    && (n in s.pending ==> Unseen(s, n, |s.inbox|) && (c.outcome.None? || c.outcome == Some(Abandoned)))
    && (c.future.Waiting? && c.outcome.None? ==> n in s.pending)
    && (c.future.Cancelled? ==> c.outcome.Some?)
    && (c.outcome.Some? && c.outcome.value.Reply? ==> c.future == Result(c.outcome.value.at))
  }

  /** Ids are handed out once, in order; every reply is the first message with the id of
      its request since that request; nobody waits for a forgotten future; and what is
      pending is awaited, or was given up by a cancelled caller. */
  ghost predicate Inv(s: State) {
    && (forall n :: n in s.calls <==> 1 <= n <= s.lastId)
    && s.pending <= s.calls.Keys
    && (forall n :: n in s.calls ==> CallInv(s, n))
  }

  lemma IssuedInv(s: State)
    requires Inv(s)
    ensures Inv(Issued(s))
  {
    forall n | n in Issued(s).calls ensures CallInv(Issued(s), n) {
      assert n in s.calls ==> CallInv(s, n);
    }
  }

  lemma FailedInv(s: State)
    requires Inv(s)
    ensures Inv(Failed(s))
  {
    var t := Failed(s);
    forall n | n in t.calls ensures CallInv(t, n) {
      assert CallInv(s, n);
    }
  }

  lemma OneName(m: Inbound, a: nat, b: nat)
    requires Bears(m, a) && Bears(m, b)
    ensures a == b
  {
  }

  lemma UnseenLonger(s: State, t: State, n: nat, m: Inbound, until: nat)
    requires n in s.calls && n in t.calls && t.calls[n].issuedAt == s.calls[n].issuedAt
    requires t.inbox == s.inbox + [m] && until <= |s.inbox| && Unseen(s, n, until)
    ensures Unseen(t, n, until)
    ensures until == |s.inbox| && !Bears(m, n) ==> Unseen(t, n, |t.inbox|)
  {
    assert forall j :: 0 <= j < |s.inbox| ==> t.inbox[j] == s.inbox[j];
  }

  lemma DeliveredCall(s: State, m: Inbound, n: nat)
    requires Inv(s) && n in s.calls
    ensures CallInv(Delivered(s, m), n)
  {
    var t := Delivered(s, m);
    assert CallInv(s, n);
    if s.calls[n].future.Result? {
      UnseenLonger(s, t, n, m, s.calls[n].future.at);
    } else if n in s.pending {
      UnseenLonger(s, t, n, m, |s.inbox|);
      if Bears(m, n) {
        OneName(m, n, Target(m, s.pending).value);
      }
    }
  }

  lemma DeliveredInv(s: State, m: Inbound)
    requires Inv(s)
    ensures Inv(Delivered(s, m))
  {
    forall n | n in Delivered(s, m).calls ensures CallInv(Delivered(s, m), n) {
      DeliveredCall(s, m, n);
    }
  }

  lemma AnsweredInv(s: State, n: nat, future: Future, outcome: Outcome, pending: set<nat>)
    requires Inv(s) && n in s.calls && s.pending - {n} <= pending <= s.pending
    requires future == s.calls[n].future || (s.calls[n].future.Waiting? && future.Cancelled?)
    requires outcome.Reply? ==> future == Result(outcome.at)
    requires n in pending ==> outcome.Abandoned?
    ensures Inv(Answered(s, n, future, outcome).(pending := pending))
  {
    var t := Answered(s, n, future, outcome).(pending := pending);
    forall k | k in t.calls ensures CallInv(t, k) {
      assert CallInv(s, k);
    }
  }

  /** A longer inbox alone, before the loop ends on it. */
  lemma ArrivedInv(s: State, m: Inbound)
    requires Inv(s) && Fatal(m)
    ensures Inv(s.(inbox := s.inbox + [m]))
  {
    var t := s.(inbox := s.inbox + [m]);
    forall n | n in t.calls ensures CallInv(t, n) {
      assert CallInv(s, n);
    }
  }

  lemma StepInv(s: State, step: Step)
    requires Inv(s) && Enabled(s, step)
    ensures Inv(Next(s, step))
  {
    match step {
      case Request => IssuedInv(s);
      case Resume(n) =>
        var f := s.calls[n].future;
        assert CallInv(s, n);
        if f.Result? {
          AnsweredInv(s, n, f, Reply(f.at), s.pending);
        } else {
          AnsweredInv(s, n, f, Error, s.pending - {n});
        }
      case Timeout(n) => AnsweredInv(s, n, Stopped(s.calls[n].future), Error, s.pending - {n});
      case SendFails(n) => AnsweredInv(s, n, s.calls[n].future, Error, s.pending - {n});
      case Abandon(n, sent) =>
        AnsweredInv(s, n, if sent then Stopped(s.calls[n].future) else s.calls[n].future, Abandoned, s.pending);
      case Receive(m) =>
        if Fatal(m) {
          ArrivedInv(s, m);
          var arrived := s.(inbox := s.inbox + [m]);
          FailedInv(arrived);
          Irrelevant(Failed(arrived), Exited(arrived));
        } else {
          DeliveredInv(s, m);
        }
      case LoopExit =>
        FailedInv(s);
        Irrelevant(Failed(s), Exited(s));
      case CloseEnd => FailedInv(s);
      case Connected(h) =>
        IssuedInv(s);
        Irrelevant(Issued(s), Next(s, step));
      case _ => Irrelevant(s, Next(s, step));
    }
  }

  /** Loops, handshakes and the flag play no part in the invariant. */
  lemma Irrelevant(s: State, t: State)
    requires Inv(s) && t == s.(loops := t.loops, initialized := t.initialized, handshakes := t.handshakes)
    ensures Inv(t)
  {
    forall n | n in t.calls ensures CallInv(t, n) {
      assert CallInv(s, n);
    }
  }

  predicate Trace(s: State, steps: seq<Step>, t: State)
    decreases |steps|
  {
    if steps == [] then s == t else Enabled(s, steps[0]) && Trace(Next(s, steps[0]), steps[1..], t)
  }

  lemma {:induction false} TraceInv(s: State, steps: seq<Step>, t: State)
    requires Inv(s) && Trace(s, steps, t)
    ensures Inv(t)
    decreases |steps|
  {
    if steps != [] {
      StepInv(s, steps[0]);
      TraceInv(Next(s, steps[0]), steps[1..], t);
    }
  }

  /** In every run, with any timeouts, late replies, disconnects and reconnects: a reply
      reaches a caller only if it is the first message with the caller's id since the
      request, and no message reaches two callers. */
  lemma RepliesAreOwn(steps: seq<Step>, s: State)
    requires Trace(FRESH, steps, s)
    ensures Inv(s)
    ensures forall n :: n in s.calls && s.calls[n].outcome.Some? && s.calls[n].outcome.value.Reply? ==>
      var at := s.calls[n].outcome.value.at;
      s.calls[n].issuedAt <= at < |s.inbox| && Bears(s.inbox[at], n) && Unseen(s, n, at)
    ensures forall a, b | a in s.calls && b in s.calls && s.calls[a].future.Result? ::
      s.calls[a].future == s.calls[b].future ==> a == b
  {
    TraceInv(FRESH, steps, s);
    forall a, b | a in s.calls && b in s.calls && s.calls[a].future.Result? && s.calls[a].future == s.calls[b].future
      ensures a == b
    {
      assert CallInv(s, a) && CallInv(s, b);
      OneName(s.inbox[s.calls[a].future.at], a, b);
    }
    forall n | n in s.calls && s.calls[n].outcome.Some? && s.calls[n].outcome.value.Reply?
      ensures var at := s.calls[n].outcome.value.at;
        s.calls[n].issuedAt <= at < |s.inbox| && Bears(s.inbox[at], n) && Unseen(s, n, at)
    {
      assert CallInv(s, n);
    }
  }

  /** A finished future and a caller's outcome never change again, and ids only grow. */
  predicate Settled(s: State, t: State) {
    && s.lastId <= t.lastId && s.inbox <= t.inbox
    && forall n :: n in s.calls ==>
         && n in t.calls && t.calls[n].issuedAt == s.calls[n].issuedAt
         && (!s.calls[n].future.Waiting? ==> t.calls[n].future == s.calls[n].future)
         && (s.calls[n].outcome.Some? ==> t.calls[n].outcome == s.calls[n].outcome)
  }

  lemma {:induction false} CompletedOnce(s: State, steps: seq<Step>, t: State)
    requires Inv(s) && Trace(s, steps, t)
    ensures Settled(s, t)
    decreases |steps|
  {
    if steps != [] {
      var u := Next(s, steps[0]);
      StepInv(s, steps[0]);
      StepSettled(s, steps[0]);
      CompletedOnce(u, steps[1..], t);
      forall n | n in s.calls
        ensures n in t.calls && t.calls[n].issuedAt == s.calls[n].issuedAt
        ensures !s.calls[n].future.Waiting? ==> t.calls[n].future == s.calls[n].future
        ensures s.calls[n].outcome.Some? ==> t.calls[n].outcome == s.calls[n].outcome
      {
        assert n in u.calls;
      }
    }
  }

  lemma StepSettled(s: State, step: Step)
    requires Inv(s) && Enabled(s, step)
    ensures Settled(s, Next(s, step))
  {
    var t := Next(s, step);
    forall n | n in s.calls
      ensures n in t.calls && t.calls[n].issuedAt == s.calls[n].issuedAt
      ensures !s.calls[n].future.Waiting? ==> t.calls[n].future == s.calls[n].future
      ensures s.calls[n].outcome.Some? ==> t.calls[n].outcome == s.calls[n].outcome
    {
      assert n <= s.lastId;
    }
  }

  /** A reply that comes too late touches no call whatsoever. */
  lemma LateReplyIgnored(s: State, m: Inbound)
    requires Inv(s) && Enabled(s, Receive(m)) && !Fatal(m)
    requires forall n :: n in s.pending ==> !Bears(m, n)
    ensures Next(s, Receive(m)) == s.(inbox := s.inbox + [m])
  {
  }

  /** After a loop has ended, and after close, nothing is pending and every caller that is
      still waiting is about to be told. */
  lemma NothingLeftPending(s: State, step: Step)
    requires Inv(s) && Enabled(s, step)
    requires step.LoopExit? || step.CloseEnd? || (step.Receive? && Fatal(step.m))
    ensures Next(s, step).pending == {}
    ensures forall n :: Unanswered(Next(s, step), n) ==> Enabled(Next(s, step), Resume(n))
  {
    StepInv(s, step);
    var t := Next(s, step);
    forall n | Unanswered(t, n) ensures Enabled(t, Resume(n)) {
      assert CallInv(t, n);
    }
  }

  // ---------- what the loop does not check ----------

  /** A pending request is completed by the first message with its id, and what it gets is
      a response exactly when that message is no request of the server's own. */
  lemma GenuineIff(s: State, n: nat, m: Inbound)
    requires Inv(s) && s.loops > 0 && n in s.pending && s.calls[n].future.Waiting? && Bears(m, n)
    ensures var t := Next(s, Receive(m));
            && t.inbox == s.inbox + [m] && n in t.calls && t.calls[n].future == Result(|s.inbox|)
            && (ServerRequest(t.inbox[t.calls[n].future.at]) <==> m.isRequest)
  {
    OneName(m, n, Target(m, s.pending).value);
  }

  /** That message stays the result in every continuation: a caller still waiting can be
      given it, whoever is given a reply is given it, and it is a response exactly when the
      server sent no request of its own. */
  lemma FirstMessageWins(s: State, n: nat, m: Inbound, steps: seq<Step>, t: State)
    requires Inv(s) && s.loops > 0 && n in s.pending && s.calls[n].future.Waiting? && Bears(m, n)
    requires Trace(Next(s, Receive(m)), steps, t)
    ensures n in t.calls && t.calls[n].future == Result(|s.inbox|)
    ensures |s.inbox| < |t.inbox| && (ServerRequest(t.inbox[|s.inbox|]) <==> m.isRequest)
    ensures Unanswered(t, n) ==> Enabled(t, Resume(n)) && Next(t, Resume(n)).calls[n].outcome == Some(Reply(|s.inbox|))
    ensures t.calls[n].outcome.Some? && t.calls[n].outcome.value.Reply? ==>
      t.calls[n].outcome == Some(Reply(|s.inbox|))
  {
    var u := Next(s, Receive(m));
    GenuineIff(s, n, m);
    StepInv(s, Receive(m));
    CompletedOnce(u, steps, t);
    TraceInv(u, steps, t);
    assert CallInv(t, n);
    assert t.inbox[|s.inbox|] == u.inbox[|s.inbox|] == m;
  }

  /** If no message with an id is a request, every reply in every run is a response. */
  lemma RepliesAreResponses(steps: seq<Step>, s: State, n: nat)
    requires Trace(FRESH, steps, s) && forall i :: 0 <= i < |s.inbox| ==> !ServerRequest(s.inbox[i])
    requires n in s.calls && s.calls[n].outcome.Some? && s.calls[n].outcome.value.Reply?
    ensures var at := s.calls[n].outcome.value.at;
            at < |s.inbox| && Bears(s.inbox[at], n) && !s.inbox[at].isRequest
  {
    RepliesAreOwn(steps, s);
    assert Bears(s.inbox[s.calls[n].outcome.value.at], n);
  }

  lemma Prepend(s: State, step: Step, rest: seq<Step>, t: State)
    requires Enabled(s, step) && Trace(Next(s, step), rest, t)
    ensures Trace(s, [step] + rest, t)
  {
    assert ([step] + rest)[1..] == rest;
  }

  function Up(calls: map<nat, Call>, inbox: seq<Inbound>, pending: set<nat>, loops: nat, initialized: bool,
              hs: map<nat, Handshake>): State
  {
    State(1, pending, calls, inbox, loops, initialized, hs)
  }

  /** A request of the server's that happens to carry the id of the handshake completes it. */
  lemma ServerRequestAccepted() returns (steps: seq<Step>, s: State)
    ensures Trace(FRESH, steps, s) && s.initialized && s.loops == 1
    ensures 1 in s.calls && s.calls[1].outcome == Some(Reply(0)) && |s.inbox| == 1 && ServerRequest(s.inbox[0])
  {
    var m := Message(Some(IntId(1)), true);
    steps, s := HandshakeRun(m);
  }

  /** A whole handshake answered by message m. */
  lemma HandshakeRun(m: Inbound) returns (steps: seq<Step>, s: State)
    requires Bears(m, 1)
    ensures Trace(FRESH, steps, s)
    ensures s == Up(map[1 := Call(0, Result(0), Some(Reply(0)))], [m], {}, 1, true, map[])
  {
    var mid: State;
    steps, mid := HandshakeStart(m);
    s := mid.(initialized := true, handshakes := map[]);
    assert mid.handshakes - {0} == map[];
    TraceMore(FRESH, steps, mid, InitDone(0));
    steps := steps + [InitDone(0)];
  }

  lemma {:induction false} TraceMore(s: State, steps: seq<Step>, t: State, last: Step)
    requires Trace(s, steps, t) && Enabled(t, last)
    ensures Trace(s, steps + [last], Next(t, last))
    decreases |steps|
  {
    if steps == [] {
      assert [last][1..] == [] && steps + [last] == [last];
      assert Trace(Next(t, last), [], Next(t, last));
    } else {
      assert (steps + [last])[1..] == steps[1..] + [last];
      TraceMore(Next(s, steps[0]), steps[1..], t, last);
    }
  }

  /** The handshake up to the moment its notification is being sent. */
  lemma HandshakeStart(m: Inbound) returns (steps: seq<Step>, s: State)
    requires Bears(m, 1)
    ensures Trace(FRESH, steps, s)
    ensures s == Up(map[1 := Call(0, Result(0), Some(Reply(0)))], [m], {}, 1, false, map[0 := Confirming])
  {
    var s1 := FRESH.(handshakes := map[0 := Connecting]);
    var s2 := Asked();
    var rest := [Receive(m), Resume(1), Confirm(0)];
    s := HandshakeReply(m);
    assert Next(FRESH, BeginInit(0)) == s1;
    assert Next(s1, Connected(0)) == s2;
    Prepend(s1, Connected(0), rest, s);
    Prepend(FRESH, BeginInit(0), [Connected(0)] + rest, s);
    steps := [BeginInit(0)] + ([Connected(0)] + rest);
  }

  /** The initialize request has been sent. */
  function Asked(): State {
    Up(map[1 := Call(0, Waiting, None)], [], {1}, 1, false, map[0 := Awaiting(1)])
  }

  lemma HandshakeReply(m: Inbound) returns (s: State)
    requires Bears(m, 1)
    ensures Trace(Asked(), [Receive(m), Resume(1), Confirm(0)], s)
    ensures s == Up(map[1 := Call(0, Result(0), Some(Reply(0)))], [m], {}, 1, false, map[0 := Confirming])
  {
    var s3 := Up(map[1 := Call(0, Result(0), None)], [m], {}, 1, false, map[0 := Awaiting(1)]);
    var s4 := s3.(calls := map[1 := Call(0, Result(0), Some(Reply(0)))]);
    s := s4.(handshakes := map[0 := Confirming]);
    OneName(m, 1, Target(m, {1}).value);
    assert Next(Asked(), Receive(m)) == s3;
    assert Next(s3, Resume(1)) == s4;
    assert Next(s4, Confirm(0)) == s;
    Prepend(s4, Confirm(0), [], s);
    Prepend(s3, Resume(1), [Confirm(0)], s);
    Prepend(Asked(), Receive(m), [Resume(1), Confirm(0)], s);
  }

  // ---------- a disconnect that is lost ----------

  /** A connection that counts as initialised has somebody reading from it. */
  predicate Live(s: State) {
    s.initialized ==> s.loops > 0
  }

  /** Every step keeps this but one: finishing a handshake after its loop has ended. */
  lemma LiveIff(s: State, step: Step)
    requires Live(s) && Enabled(s, step)
    ensures Live(Next(s, step)) <==> !(step.InitDone? && s.loops == 0)
  {
  }

  /** The stream ends while the notification of the handshake is under way: the run below
      leaves the connection initialised with nobody reading. */
  lemma LostDisconnect() returns (steps: seq<Step>, s: State)
    ensures Trace(FRESH, steps, s) && Deaf(s)
  {
    var mid: State;
    steps, mid := HandshakeStart(Message(Some(IntId(1)), false));
    TraceMore(FRESH, steps, mid, LoopExit);
    steps := steps + [LoopExit];
    var after := Next(mid, LoopExit);
    TraceMore(FRESH, steps, after, InitDone(0));
    steps := steps + [InitDone(0)];
    s := Next(after, InitDone(0));
    assert s.handshakes == map[];
  }

  predicate Deaf(s: State) {
    s.initialized && s.loops == 0 && s.handshakes == map[]
  }

  /** Nothing but an explicit close leads out of that state: no later call is ever
      answered, and no reconnect begins. */
  lemma {:induction false} DeafForever(s: State, steps: seq<Step>, t: State)
    requires Inv(s) && Deaf(s) && Trace(s, steps, t) && forall i :: 0 <= i < |steps| ==> !steps[i].CloseBegin?
    ensures Deaf(t) && t.inbox == s.inbox
    ensures forall n :: n in t.calls && t.calls[n].future.Result? ==>
      n in s.calls && s.calls[n].future == t.calls[n].future
    decreases |steps|
  {
    if steps != [] {
      var u := Next(s, steps[0]);
      assert !steps[0].CloseBegin?;
      StepInv(s, steps[0]);
      DeafForever(u, steps[1..], t);
    }
  }

  // ---------- single steps ----------

  /** What ends the receive loop: a line that is no object, or an id that is no key.  Every
      pending future that still waits is broken, and the connection counts as down. */
  lemma FatalIs(s: State, m: Inbound)
    requires Enabled(s, Receive(m))
    ensures m == NotObject || (m.Message? && m.id == Some(CompoundId)) ==>
      var t := Next(s, Receive(m));
      && t.loops == s.loops - 1 && !t.initialized && t.pending == {} && t.inbox == s.inbox + [m]
      && t.calls.Keys == s.calls.Keys
      && forall n :: n in s.calls ==>
           var c := s.calls[n];
           t.calls[n] == if n in s.pending && c.future.Waiting? then c.(future := Broken) else c
    ensures m == BadJson || (m.Message? && m.id.None?) ==> Next(s, Receive(m)) == s.(inbox := s.inbox + [m])
  {
  }

  /** A caller that gives up: after its time limit it gets an error, its id leaves the map,
      and a future that still waits is cancelled; a cancelled caller leaves its id there, and
      its future waits on if the request was not sent yet. */
  lemma GiveUpIs(s: State, n: nat, sent: bool)
    requires Unanswered(s, n)
    ensures var t := Next(s, Timeout(n));
            && t.pending == s.pending - {n} && t.calls[n].outcome == Some(Error)
            && (s.calls[n].future.Waiting? ==> t.calls[n].future.Cancelled?)
            && (!s.calls[n].future.Waiting? ==> t.calls[n].future == s.calls[n].future)
    ensures var t := Next(s, Abandon(n, sent));
            && t.pending == s.pending && t.calls[n].outcome == Some(Abandoned)
            && (sent && s.calls[n].future.Waiting? ==> t.calls[n].future.Cancelled?)
            && (!sent || !s.calls[n].future.Waiting? ==> t.calls[n].future == s.calls[n].future)
    ensures forall k :: k in s.calls && k != n ==>
      Next(s, Timeout(n)).calls[k] == s.calls[k] && Next(s, Abandon(n, sent)).calls[k] == s.calls[k]
  {
  }

  /** Closing drops the flag first and fails what is pending at its end; a handshake sets the
      flag when it is done, and leaves the table however it ends. */
  lemma LifecycleIs(s: State, h: nat)
    ensures !Next(s, CloseBegin).initialized && Next(s, CloseBegin) == s.(initialized := false)
    ensures Enabled(s, InitDone(h)) ==>
      var t := Next(s, InitDone(h));
      t.initialized && h !in t.handshakes && t == s.(initialized := true, handshakes := t.handshakes)
    ensures Enabled(s, DropInit(h)) ==>
      var t := Next(s, DropInit(h));
      h !in t.handshakes && t == s.(handshakes := t.handshakes)
  {
  }
}
