/** De-duplication of inbound messages by id: `_LRUDedup` (gateway/dispatcher.py).  The
    ordered dictionary is the list of its keys, oldest use first. */
module LruDedup {

  // ---------- specification: the use of ids over the whole history ----------

  function Remove(s: seq<string>, x: string): seq<string> {
    if s == [] then [] else if s[0] == x then Remove(s[1..], x) else [s[0]] + Remove(s[1..], x)
  }

  /** The distinct non-empty ids of a history, in the order of their last use. */
  function ByLastUse(history: seq<string>): (r: seq<string>)
    decreases |history|
  {
    if history == [] then []
    else
      var before, x := ByLastUse(history[..|history| - 1]), history[|history| - 1];
      if x == "" then before else Remove(before, x) + [x]
  }

  function Last(s: seq<string>, n: int): (r: seq<string>)
    ensures |r| <= |s| && r == s[|s| - |r|..]
    ensures |r| == if n <= 0 then 0 else if |s| <= n then |s| else n
  {
    if n <= 0 then [] else if |s| <= n then s else s[|s| - n..]
  }

  /** The `capacity` most recently used ids. */
  function Recent(history: seq<string>, capacity: int): seq<string> {
    Last(ByLastUse(history), capacity)
  }

  // ---------- the code ----------

  class LRUDedup {
    const capacity: int
    var seen: seq<string>

    /** The dictionary remembers this history of ids. */
    ghost predicate Remembers(history: seq<string>)
      reads this
    {
      seen == Recent(history, capacity)
    }

    constructor (capacity: int)
      ensures this.capacity == capacity && Remembers([])
    {
      this.capacity := capacity;
      seen := [];
    }

    method IsDup(id: string, ghost history: seq<string>) returns (dup: bool)
      requires Remembers(history)
      modifies this
      ensures Remembers(history + [id])
      ensures dup <==> Duplicate(history, id, capacity)
    {
      assert (history + [id])[..|history|] == history;
      if id == "" {
        return false;
      }
      DuplicateIff(history, id, capacity);
      ghost var order := ByLastUse(history);
      OrderDistinct(history);
      if id in seen {
        SplitRecent(order, id, capacity);
        seen := Remove(seen, id) + [id];
        return true;
      }
      NotRecent(order, id, capacity);
      seen := seen + [id];
      if |seen| > capacity {
        seen := seen[1..];
      }
      return false;
    }
  }

  // ---------- lemmas on the order ----------

  predicate Distinct(s: seq<string>) {
    forall i, j :: 0 <= i < j < |s| ==> s[i] != s[j]
  }

  lemma {:induction false} RemoveMembers(s: seq<string>, x: string)
    ensures |Remove(s, x)| <= |s|
    ensures forall y :: y in Remove(s, x) <==> y in s && y != x
    ensures Distinct(s) ==> Distinct(Remove(s, x))
  {
    if s != [] {
      RemoveMembers(s[1..], x);
      assert s == [s[0]] + s[1..];
      if Distinct(s) && s[0] != x {
        var r := Remove(s[1..], x);
        forall i, j | 0 <= i < j < |[s[0]] + r| ensures ([s[0]] + r)[i] != ([s[0]] + r)[j] {
          if i == 0 {
            assert r[j - 1] in r && r[j - 1] in s[1..];
          }
        }
      }
    }
  }

  lemma {:induction false} RemoveAbsent(s: seq<string>, x: string)
    requires x !in s
    ensures Remove(s, x) == s
  {
    if s != [] {
      RemoveAbsent(s[1..], x);
    }
  }

  lemma {:induction false} RemoveConcat(a: seq<string>, b: seq<string>, x: string)
    ensures Remove(a + b, x) == Remove(a, x) + Remove(b, x)
  {
    if a == [] {
      assert a + b == b;
    } else {
      assert (a + b)[1..] == a[1..] + b;
      RemoveConcat(a[1..], b, x);
    }
  }

  lemma {:induction false} OrderDistinct(history: seq<string>)
    ensures Distinct(ByLastUse(history))
    decreases |history|
  {
    if history != [] {
      var n := |history| - 1;
      var before := ByLastUse(history[..n]);
      OrderDistinct(history[..n]);
      RemoveMembers(before, history[n]);
      assert Distinct(Remove(before, history[n]) + [history[n]]) by {
        forall i | 0 <= i < |Remove(before, history[n])| ensures Remove(before, history[n])[i] != history[n] {
          assert Remove(before, history[n])[i] in Remove(before, history[n]);
        }
      }
    }
  }

  lemma {:induction false} OrderMember(history: seq<string>, x: string)
    ensures x in ByLastUse(history) <==> x in history && x != ""
    decreases |history|
  {
    if history != [] {
      var n := |history| - 1;
      OrderMember(history[..n], x);
      RemoveMembers(ByLastUse(history[..n]), history[n]);
      assert history == history[..n] + [history[n]];
      assert x in history <==> x in history[..n] || x == history[n];
      if history[n] != "" {
        var r := Remove(ByLastUse(history[..n]), history[n]);
        assert x in r + [history[n]] <==> x in r || x == history[n];
      }
    }
  }

  /** An id that is remembered moves to the end of what is remembered. */
  lemma SplitRecent(order: seq<string>, x: string, capacity: int)
    requires Distinct(order) && x in Last(order, capacity)
    ensures Last(Remove(order, x) + [x], capacity) == Remove(Last(order, capacity), x) + [x]
  {
    var kept := Last(order, capacity);
    var front := order[..|order| - |kept|];
    assert order == front + kept;
    PartsApart(front, kept);
    RemoveConcat(front, kept, x);
    RemoveAbsent(front, x);
    RemoveOnce(kept, x);
    MovedToEnd(front, Remove(kept, x), x, capacity);
  }

  lemma MovedToEnd(front: seq<string>, others: seq<string>, x: string, capacity: int)
    requires |others| + 1 <= capacity && (front != [] ==> |others| + 1 == capacity)
    ensures Last(front + others + [x], capacity) == others + [x]
  {
  }

  lemma {:induction false} RemoveOnce(s: seq<string>, x: string)
    requires Distinct(s) && x in s
    ensures |Remove(s, x)| == |s| - 1
  {
    if s[0] == x {
      RemoveAbsent(s[1..], x);
    } else {
      RemoveOnce(s[1..], x);
    }
  }

  /** An id that is not remembered pushes out the oldest one. */
  lemma NotRecent(order: seq<string>, x: string, capacity: int)
    requires Distinct(order) && x !in Last(order, capacity)
    ensures var more := Last(order, capacity) + [x];
            Last(Remove(order, x) + [x], capacity) == if |more| > capacity then more[1..] else more
  {
    var kept := Last(order, capacity);
    var front := order[..|order| - |kept|];
    assert order == front + kept;
    RemoveConcat(front, kept, x);
    RemoveAbsent(kept, x);
    assert Remove(order, x) + [x] == Remove(front, x) + (kept + [x]);
    LastOfConcat(Remove(front, x), kept + [x], capacity);
  }

  lemma LastOfConcat(a: seq<string>, b: seq<string>, n: int)
    ensures n <= |b| ==> Last(a + b, n) == Last(b, n)
    ensures a == [] ==> a + b == b
  {
    if 0 < n <= |b| {
      assert (a + b)[|a + b| - n..] == b[|b| - n..];
    }
  }

  lemma PartsApart(a: seq<string>, b: seq<string>)
    requires Distinct(a + b)
    ensures forall x :: x in b ==> x !in a
  {
    forall i, j | 0 <= i < |a| && 0 <= j < |b| ensures a[i] != b[j] {
      assert (a + b)[i] == a[i] && (a + b)[|a| + j] == b[j];
    }
  }

  // ---------- what counts as a duplicate ----------

  /** The non-empty ids used after the last use of x. */
  function UsedSince(history: seq<string>, x: string): set<string>
    decreases |history|
  {
    if history == [] || history[|history| - 1] == x then {}
    else
      var last := history[|history| - 1];
      UsedSince(history[..|history| - 1], x) + if last == "" then {} else {last}
  }

  /** Seen before, with fewer than `capacity` other ids since. */
  predicate Duplicate(history: seq<string>, x: string, capacity: int) {
    x != "" && x in history && |UsedSince(history, x)| < capacity
  }

  /** How many ids stand behind x. */
  function Behind(s: seq<string>, x: string): set<string> {
    if x !in s then {} else if s[0] == x then set y | y in s[1..] else Behind(s[1..], x)
  }

  lemma {:induction false} BehindAppend(s: seq<string>, x: string, y: string)
    requires x in s && x != y && Distinct(s)
    ensures Behind(Remove(s, y) + [y], x) == Behind(s, x) + {y}
  {
    RemoveMembers(s, y);
    var r := Remove(s, y) + [y];
    if s[0] == x {
      RemoveMembers(s[1..], y);
      assert r[0] == x && r[1..] == Remove(s[1..], y) + [y];
    } else {
      BehindAppend(s[1..], x, y);
      RemoveMembers(s[1..], y);
      if s[0] == y {
        RemoveAbsent(s[1..], y);
      } else {
        assert r[1..] == Remove(s[1..], y) + [y];
      }
    }
  }

  lemma {:induction false} BehindLast(s: seq<string>, x: string)
    requires x !in s
    ensures Behind(s + [x], x) == {}
  {
    if s != [] {
      assert (s + [x])[1..] == s[1..] + [x];
      BehindLast(s[1..], x);
    } else {
      assert ([x])[1..] == [] && s + [x] == [x];
    }
  }

  lemma {:induction false} UsedSinceBehind(history: seq<string>, x: string)
    requires x in history && x != ""
    ensures UsedSince(history, x) == Behind(ByLastUse(history), x)
    decreases |history|
  {
    var n := |history| - 1;
    var before, last := history[..n], history[n];
    assert history == before + [last];
    OrderDistinct(before);
    OrderMember(before, x);
    RemoveMembers(ByLastUse(before), last);
    if last == x {
      BehindLast(Remove(ByLastUse(before), x), x);
    } else {
      UsedSinceBehind(before, x);
      if last != "" {
        BehindAppend(ByLastUse(before), x, last);
      }
    }
  }

  lemma {:induction false} BehindCount(s: seq<string>, x: string, n: int)
    requires Distinct(s) && x in s
    ensures |Behind(s, x)| < |s|
    ensures x in Last(s, n) <==> |Behind(s, x)| < n
  {
    var tail := s[1..];
    LastOfTail(s, n);
    if s[0] == x {
      SetSize(tail);
    } else {
      BehindCount(tail, x, n);
    }
  }

  lemma LastOfTail(s: seq<string>, n: int)
    requires s != []
    ensures n < |s| ==> Last(s, n) == Last(s[1..], n)
    ensures n >= |s| ==> Last(s, n) == s && Last(s[1..], n) == s[1..]
  {
  }

  lemma {:induction false} SetSize(s: seq<string>)
    requires Distinct(s)
    ensures |set y | y in s| == |s|
  {
    if s != [] {
      SetSize(s[1..]);
      assert (set y | y in s) == (set y | y in s[1..]) + {s[0]};
    }
  }

  /** The dictionary recognises exactly the duplicates. */
  lemma DuplicateIff(history: seq<string>, x: string, capacity: int)
    requires x != ""
    ensures x in Recent(history, capacity) <==> Duplicate(history, x, capacity)
  {
    var order := ByLastUse(history);
    OrderDistinct(history);
    OrderMember(history, x);
    if x in history {
      UsedSinceBehind(history, x);
      BehindCount(order, x, capacity);
    } else {
      var kept := Recent(history, capacity);
      assert order == order[..|order| - |kept|] + kept;
    }
  }

  /** Positions of a message sequence at which a duplicate is reported. */
  function Reported(messages: seq<string>, capacity: int): set<nat> {
    set i | 0 <= i < |messages| && Duplicate(messages[..i], messages[i], capacity)
  }

  /** A larger dictionary misses nothing that a smaller one finds, and with room for every
      id that occurs each repetition is found. */
  lemma LargerFindsMore(messages: seq<string>, small: int, large: int)
    requires small <= large
    ensures Reported(messages, small) <= Reported(messages, large)
    ensures |messages| <= large ==>
      Reported(messages, large) == set i | 0 <= i < |messages| && messages[i] != "" && messages[i] in messages[..i]
  {
    forall i | 0 <= i < |messages| ensures |UsedSince(messages[..i], messages[i])| <= i {
      UsedBound(messages[..i], messages[i]);
    }
  }

  lemma {:induction false} UsedBound(history: seq<string>, x: string)
    ensures |UsedSince(history, x)| <= |history|
    decreases |history|
  {
    if history != [] {
      UsedBound(history[..|history| - 1], x);
    }
  }
}
