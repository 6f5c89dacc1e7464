/** Emergency eviction of old history: `Agent._truncate_history` (agent.py) over the
    token anchor of the message store. */
module Truncation {
  import opened Messages
  import opened MessageStorage

  // ---------- specification ----------

  /** Size of the group at index 1: a tool-call carrier or a stray tool message takes the
      tool messages behind it along. */
  function GroupSize(ms: seq<Message>): (n: nat)
    requires |ms| > 1
    ensures 1 <= n <= |ms| - 1
  {
    if (ms[1].role.Assistant? && ms[1].kind.ToolCalls?) || ms[1].role.Tool?
    then 1 + ToolRun(ms[2..])
    else 1
  }

  function DropGroup(ms: seq<Message>): (rest: seq<Message>)
    requires |ms| > 1
    ensures 1 <= |rest| < |ms|
  {
    [ms[0]] + ms[1 + GroupSize(ms)..]
  }

  /** The list without its k oldest groups (fewer, when they run out). */
  function DropGroups(ms: seq<Message>, k: nat): seq<Message>
    decreases k
  {
    if k == 0 || |ms| <= 1 then ms else DropGroups(DropGroup(ms), k - 1)
  }

  predicate Fits(ms: seq<Message>, budget: int) {
    |ms| <= 3 || EstimateAll(ms) <= budget
  }

  /** Drop groups until the list fits, estimating the whole list afresh each time. */
  function Evict(ms: seq<Message>, budget: int): (r: seq<Message>)
    ensures Fits(r, budget)
    ensures |r| <= |ms|
    decreases |ms|
  {
    if Fits(ms, budget) then ms else Evict(DropGroup(ms), budget)
  }

  /** Above 95% of the budget. */
  predicate Overflowing(live: nat, budget: int) {
    20 * live > 19 * budget
  }

  function Truncated(ms: seq<Message>, live: nat, budget: int): seq<Message> {
    if budget <= 0 || |ms| <= 3 || !Overflowing(live, budget) then ms else Evict(ms, budget)
  }

  // ---------- the code ----------

  class Agent {
    const store: MessageStore
    var maxHistoryTokens: int

    constructor (store: MessageStore, maxHistoryTokens: int)
      ensures this.store == store && this.maxHistoryTokens == maxHistoryTokens
    {
      this.store := store;
      this.maxHistoryTokens := maxHistoryTokens;
    }

    method TruncateHistory()
      modifies store
      ensures store.messages == Truncated(old(store.messages), old(store.LiveTokens()), maxHistoryTokens)
      ensures store.messages == old(store.messages) ==>
        store.anchorTotal == old(store.anchorTotal) && store.anchorCount == old(store.anchorCount)
      ensures store.messages != old(store.messages) ==> store.LiveTokens() == EstimateAll(store.messages)
    {
      if maxHistoryTokens <= 0 || |store.messages| <= 3 {
        return;
      }
      if !Overflowing(store.LiveTokens(), maxHistoryTokens) {
        return;
      }
      var perMessage := PerMessage(store.messages);
      var total := SumOf(perMessage);
      PerMessageSum(store.messages);
      var dropped := 0;
      while |store.messages| > 3 && total > maxHistoryTokens
        invariant perMessage == PerMessage(store.messages)
        invariant total == EstimateAll(store.messages)
        invariant Evict(store.messages, maxHistoryTokens) == Evict(old(store.messages), maxHistoryTokens)
        invariant dropped == |old(store.messages)| - |store.messages|
        invariant dropped == 0 ==> store.messages == old(store.messages)
        invariant store.anchorTotal == old(store.anchorTotal) && store.anchorCount == old(store.anchorCount)
        decreases |store.messages|
      {
        var count := CountGroup(store.messages);
        var removed := SumOf(perMessage[1..1 + count]);
        RemovedTokens(store.messages, count);
        ghost var before := store.messages;
        store.messages := store.messages[..1] + store.messages[1 + count..];
        perMessage := perMessage[..1] + perMessage[1 + count..];
        dropped := dropped + count;
        total := total - removed;
        assert store.messages == DropGroup(before);
      }
      if dropped > 0 {
        store.ResetAnchor();
      }
    }
  }

  /** The scan for the group at index 1. */
  method CountGroup(ms: seq<Message>) returns (count: nat)
    requires |ms| > 1
    ensures count == GroupSize(ms)
  {
    count := 1;
    if (ms[1].role.Assistant? && ms[1].kind.ToolCalls?) || ms[1].role.Tool? {
      while 1 + count < |ms| && ms[1 + count].role.Tool?
        invariant 1 <= count <= |ms| - 1
        invariant forall i :: 2 <= i < 1 + count ==> ms[i].role.Tool?
      {
        count := count + 1;
      }
      RunIs(ms[2..], count - 1);
    }
  }

  function PerMessage(ms: seq<Message>): (p: seq<nat>)
    ensures |p| == |ms|
  {
    seq(|ms|, i requires 0 <= i < |ms| => ContextTokens(ms[i]))
  }

  function SumOf(p: seq<nat>): nat {
    if p == [] then 0 else p[0] + SumOf(p[1..])
  }

  lemma {:induction false} PerMessageSum(ms: seq<Message>)
    ensures SumOf(PerMessage(ms)) == EstimateAll(ms)
  {
    if ms != [] {
      assert PerMessage(ms)[1..] == PerMessage(ms[1..]);
      PerMessageSum(ms[1..]);
    }
  }

  /** Subtracting the removed estimates agrees with estimating what is left. */
  lemma RemovedTokens(ms: seq<Message>, count: nat)
    requires 1 + count <= |ms|
    ensures var left := ms[..1] + ms[1 + count..];
            var p := PerMessage(ms);
            && p[..1] + p[1 + count..] == PerMessage(left)
            && EstimateAll(left) == EstimateAll(ms) - SumOf(p[1..1 + count])
  {
    var first, gone, rest := ms[..1], ms[1..1 + count], ms[1 + count..];
    assert ms == first + gone + rest;
    EstimateConcat(first + gone, rest);
    EstimateConcat(first, gone);
    EstimateConcat(first, rest);
    PerMessageParts(ms, count);
    PerMessageSum(gone);
  }

  lemma PerMessageParts(ms: seq<Message>, count: nat)
    requires 1 + count <= |ms|
    ensures var p := PerMessage(ms);
            && p[..1] + p[1 + count..] == PerMessage(ms[..1] + ms[1 + count..])
            && p[1..1 + count] == PerMessage(ms[1..1 + count])
  {
  }

  // ---------- what eviction guarantees ----------

  /** The fewest groups go: k of them, and no smaller number would have fitted. */
  lemma {:induction false} EvictFewest(ms: seq<Message>, budget: int) returns (k: nat)
    ensures Evict(ms, budget) == DropGroups(ms, k)
    ensures forall j :: 0 <= j < k ==> !Fits(DropGroups(ms, j), budget)
    decreases |ms|
  {
    if Fits(ms, budget) {
      k := 0;
    } else {
      var less := EvictFewest(DropGroup(ms), budget);
      k := less + 1;
      forall j | 0 <= j < k ensures !Fits(DropGroups(ms, j), budget) {
        if j > 0 {
          assert DropGroups(ms, j) == DropGroups(DropGroup(ms), j - 1);
        }
      }
    }
  }

  predicate CarrierOrTool(m: Message) {
    m.role.Tool? || (m.role.Assistant? && m.kind.ToolCalls?)
  }

  /** Positions at which the oldest messages may be cut off: not between a carrier or tool
      message and a tool message behind it. */
  predicate CutPoint(ms: seq<Message>, c: nat) {
    1 <= c <= |ms| && (1 < c < |ms| ==> !(ms[c].role.Tool? && CarrierOrTool(ms[c - 1])))
  }

  /** What would be left of a cut there fits. */
  predicate FitsFrom(ms: seq<Message>, c: nat, budget: int)
    requires 1 <= c <= |ms|
  {
    |ms| - c + 1 <= 3 || EstimateAll([ms[0]] + ms[c..]) <= budget
  }

  lemma InsideGroup(ms: seq<Message>, c: nat)
    requires |ms| > 1 && 1 < c <= GroupSize(ms)
    ensures !CutPoint(ms, c)
  {
    assert ms[2..][c - 2] == ms[c];
    assert c > 2 ==> ms[2..][c - 3] == ms[c - 1];
  }

  lemma BehindGroup(ms: seq<Message>)
    requires |ms| > 1
    ensures CutPoint(ms, 1 + GroupSize(ms))
  {
    var n := GroupSize(ms);
    assert 1 + n < |ms| && CarrierOrTool(ms[1]) ==> ms[2..][n - 1] == ms[1 + n];
  }

  /** Eviction stops at the first cut point that fits: every smaller one is still over the
      budget, whole list included. */
  lemma {:induction false} EvictLeast(ms: seq<Message>, budget: int) returns (cut: nat)
    requires ms != []
    ensures CutPoint(ms, cut) && Evict(ms, budget) == [ms[0]] + ms[cut..] && FitsFrom(ms, cut, budget)
    ensures forall c :: 1 <= c < cut && CutPoint(ms, c) ==> !FitsFrom(ms, c, budget)
    decreases |ms|
  {
    WholeFits(ms, budget);
    if Fits(ms, budget) {
      cut := 1;
    } else {
      var n, less := GroupSize(ms), DropGroup(ms);
      var c := EvictLeast(less, budget);
      cut := c + n;
      LessCut(ms, c, budget);
      forall d | 1 <= d < cut && CutPoint(ms, d) ensures !FitsFrom(ms, d, budget) {
        EarlierCut(ms, c, d, budget);
      }
    }
  }

  lemma WholeFits(ms: seq<Message>, budget: int)
    requires ms != []
    ensures [ms[0]] + ms[1..] == ms && (Fits(ms, budget) <==> FitsFrom(ms, 1, budget))
  {
    assert [ms[0]] + ms[1..] == ms;
  }

  lemma EarlierCut(ms: seq<Message>, c: nat, d: nat, budget: int)
    requires |ms| > 1 && !FitsFrom(ms, 1, budget) && 1 <= c <= |DropGroup(ms)|
    requires forall i :: 1 <= i < c && CutPoint(DropGroup(ms), i) ==> !FitsFrom(DropGroup(ms), i, budget)
    requires 1 <= d < c + GroupSize(ms) && CutPoint(ms, d)
    ensures !FitsFrom(ms, d, budget)
  {
    if 1 < d <= GroupSize(ms) {
      InsideGroup(ms, d);
    } else if d > 1 {
      LessCut(ms, d - GroupSize(ms), budget);
    }
  }

  lemma LessCut(ms: seq<Message>, i: nat, budget: int)
    requires |ms| > 1 && 1 <= i <= |DropGroup(ms)|
    ensures var n, less := GroupSize(ms), DropGroup(ms);
            && less[i..] == ms[i + n..] && less[0] == ms[0]
            && (CutPoint(less, i) <==> CutPoint(ms, i + n))
            && (FitsFrom(less, i, budget) <==> FitsFrom(ms, i + n, budget))
  {
    var n, less := GroupSize(ms), DropGroup(ms);
    BehindGroup(ms);
    assert less[i..] == ms[i + n..];
    assert i < |less| ==> less[i] == ms[i + n];
    assert i > 1 ==> less[i - 1] == ms[i + n - 1];
  }

  /** What is left is the first message and a suffix that does not begin inside a tool run. */
  lemma EvictSuffix(ms: seq<Message>, budget: int) returns (cut: nat)
    requires ms != []
    ensures 1 <= cut <= |ms|
    ensures Evict(ms, budget) == [ms[0]] + ms[cut..]
    ensures 1 < cut < |ms| ==>
      var last := ms[cut - 1];
      !ms[cut].role.Tool? || !(last.role.Tool? || (last.role.Assistant? && last.kind.ToolCalls?))
  {
    cut := EvictLeast(ms, budget);
  }

  lemma DropGroupArranged(ms: seq<Message>)
    requires Arranged(ms) && |ms| > 1
    ensures Arranged(DropGroup(ms))
  {
    var n := GroupSize(ms);
    if 1 + n < |ms| {
      if ms[1].role.Tool? || (ms[1].role.Assistant? && ms[1].kind.ToolCalls?) {
        assert ms[2..][n - 1] == ms[1 + n];
      } else {
        BeforeTool(ms[1..], 0);
      }
    }
    ArrangedSuffix(ms, 1 + n);
  }

  lemma {:induction false} EvictArranged(ms: seq<Message>, budget: int)
    requires Arranged(ms)
    ensures Arranged(Evict(ms, budget)) && (Headed(ms) <==> Headed(Evict(ms, budget)))
    decreases |ms|
  {
    if !Fits(ms, budget) {
      DropGroupArranged(ms);
      EvictArranged(DropGroup(ms), budget);
    }
  }

  /** Truncation keeps the arrangement and, as it keeps the first message, its kind. */
  lemma TruncatedArranged(ms: seq<Message>, live: nat, budget: int)
    requires Arranged(ms)
    ensures Arranged(Truncated(ms, live, budget)) && (Headed(ms) <==> Headed(Truncated(ms, live, budget)))
  {
    EvictArranged(ms, budget);
  }

  /** The entry test trusts the anchored count, the loop the plain estimate: nothing is
      removed from a list that the estimate says fits. */
  lemma {:induction false} EvictOnlyWhenOver(ms: seq<Message>, budget: int)
    ensures |Evict(ms, budget)| < |ms| <==> |ms| > 3 && EstimateAll(ms) > budget
  {
    if !Fits(ms, budget) {
      assert Evict(ms, budget) == Evict(DropGroup(ms), budget);
    }
  }

  /** The emergency test: more than 95% of the budget. */
  lemma OverflowIff(live: nat, budget: int)
    ensures Overflowing(live, budget) <==> live as real > 0.95 * budget as real
  {
  }

  /** The whole of it: nothing is removed without a budget, from three messages or fewer, or
      up to 95% of the budget; above, all in front of the first cut point that fits. */
  lemma TruncatedIs(ms: seq<Message>, live: nat, budget: int) returns (cut: nat)
    ensures budget <= 0 || |ms| <= 3 || live as real <= 0.95 * budget as real ==> Truncated(ms, live, budget) == ms
    ensures budget > 0 && |ms| > 3 && live as real > 0.95 * budget as real ==>
      && CutPoint(ms, cut) && Truncated(ms, live, budget) == [ms[0]] + ms[cut..] && FitsFrom(ms, cut, budget)
      && forall c :: 1 <= c < cut && CutPoint(ms, c) ==> !FitsFrom(ms, c, budget)
  {
    cut := 0;
    if ms != [] {
      cut := EvictLeast(ms, budget);
    }
  }
}
