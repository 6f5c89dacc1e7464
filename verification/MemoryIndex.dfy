/** The in-memory index of the memory store with its delayed weight write-back and its
    cached BM25 object (memory/manager.py).  BM25 is known only by the token lists it was
    built from, tokenisation by a parameter, and the disk by its contents. */
module MemoryIndex {
  import opened Text

  type Tokens = seq<string>

  datatype Entry = Entry(id: nat, session: string, date: string, userCall: string, weight: int)

  datatype State = State(
    disk: seq<Entry>,             // index.json
    docs: map<nat, string>,       // summaries in the daily files
    current: bool,                 // the cache signature matches the disk
    synced: seq<Entry>,           // the index file as the cache last saw or wrote it
    read: map<nat, string>,       // the summaries the tokens were made from
    cache: seq<Entry>,
    tokens: map<nat, Tokens>,
    bm25: Option<seq<Tokens>>,
    bm25Ids: set<nat>,
    pending: map<nat, int>,
    dirty: bool)

  const HIDDEN_BELOW := -5

  predicate Shown(e: Entry) {
    e.weight >= HIDDEN_BELOW
  }

  function Ids(es: seq<Entry>): (r: set<nat>)
    ensures forall i :: 0 <= i < |es| ==> es[i].id in r
  {
    set i | 0 <= i < |es| :: es[i].id
  }

  predicate Distinct(es: seq<Entry>) {
    forall i, j :: 0 <= i < j < |es| ==> es[i].id != es[j].id
  }

  function Delta(pending: map<nat, int>, id: nat): int {
    if id in pending then pending[id] else 0
  }

  // ---------- corpus ----------

  function Summary(docs: map<nat, string>, id: nat): string {
    if id in docs then docs[id] else ""
  }

  function Document(e: Entry, docs: map<nat, string>): string {
    e.userCall + " " + Summary(docs, e.id)
  }

  function AllTokens(es: seq<Entry>, docs: map<nat, string>, tokenize: string -> Tokens): (r: map<nat, Tokens>)
    ensures r.Keys == Ids(es)
  {
    if es == [] then map[]
    else
      var n := |es| - 1;
      var rest := AllTokens(es[..n], docs, tokenize);
      assert Ids(es) == Ids(es[..n]) + {es[n].id} by {
        assert forall i :: 0 <= i < n ==> es[i] == es[..n][i];
      }
      rest[es[n].id := tokenize(Document(es[n], docs))]
  }

  function ShownIds(es: seq<Entry>): set<nat> {
    set i | 0 <= i < |es| && Shown(es[i]) :: es[i].id
  }

  function Chosen(es: seq<Entry>, ids: set<nat>): seq<Entry> {
    if es == [] then []
    else (if es[0].id in ids then [es[0]] else []) + Chosen(es[1..], ids)
  }

  function TokenLists(es: seq<Entry>, tokens: map<nat, Tokens>): seq<Tokens> {
    seq(|es|, i requires 0 <= i < |es| => if es[i].id in tokens then tokens[es[i].id] else [])
  }

  /** A BM25 object over these lists; none can be built when there is no token at all. */
  function Built(lists: seq<Tokens>): Option<seq<Tokens>> {
    if exists i :: 0 <= i < |lists| && lists[i] != [] then Some(lists) else None
  }

  function Reindexed(s: State): State {
    var shown := ShownIds(s.cache);
    s.(bm25 := Built(TokenLists(Chosen(s.cache, shown), s.tokens)), bm25Ids := shown)
  }

  /** Pending weight changes are applied again to what the disk holds now. */
  function Reapplied(es: seq<Entry>, pending: map<nat, int>): (r: seq<Entry>)
    ensures |r| == |es|
  {
    seq(|es|, i requires 0 <= i < |es| => es[i].(weight := es[i].weight + Delta(pending, es[i].id)))
  }

  function Reloaded(s: State, tokenize: string -> Tokens): State {
    var cache := Reapplied(s.disk, s.pending);
    Reindexed(s.(cache := cache, synced := s.disk, read := s.docs, current := true,
                  tokens := AllTokens(cache, s.docs, tokenize)))
  }

  function Refreshed(s: State, tokenize: string -> Tokens): State {
    if !s.current then Reloaded(s, tokenize)
    else if ShownIds(s.cache) != s.bm25Ids then Reindexed(s)
    else s
  }

  // ---------- weights ----------

  function Bumped(es: seq<Entry>, ids: set<nat>, delta: int): (r: seq<Entry>)
    ensures |r| == |es|
  {
    seq(|es|, i requires 0 <= i < |es| => if es[i].id in ids then es[i].(weight := es[i].weight + delta) else es[i])
  }

  function Noted(pending: map<nat, int>, ids: set<nat>, delta: int): (r: map<nat, int>)
    ensures forall id :: Delta(r, id) == Delta(pending, id) + if id in ids then delta else 0
  {
    map id | id in pending.Keys + ids :: Delta(pending, id) + if id in ids then delta else 0
  }

  function Adjusted(s: State, ids: set<nat>, delta: int): State {
    s.(cache := Bumped(s.cache, ids, delta), pending := Noted(s.pending, ids * Ids(s.cache), delta), dirty := true)
  }

  /** The file is overwritten with the cache, whatever it held. */
  function Written(s: State, es: seq<Entry>): State {
    s.(disk := es, synced := es, current := true)
  }

  function Settled(s: State): State {
    s.(pending := map[], dirty := false)
  }

  function Flushed(s: State): State {
    if s.dirty then Settled(Written(s, s.cache)) else s
  }

  /** Save a conversation into the entry at position k, or into a new one at the end. */
  function Stored(s: State, k: nat, e: Entry, summary: string, tokenize: string -> Tokens): State
    requires k <= |s.cache|
  {
    var cache := if k == |s.cache| then s.cache + [e] else s.cache[k := e];
    var docs := s.docs[e.id := summary];
    Settled(Reindexed(Written(s, cache).(cache := cache, docs := docs, read := s.read[e.id := summary],
                                         tokens := s.tokens[e.id := tokenize(Document(e, docs))])))
  }

  function Kept(es: seq<Entry>, drop: set<nat>): seq<Entry> {
    if es == [] then []
    else (if es[0].id in drop then [] else [es[0]]) + Kept(es[1..], drop)
  }

  /** Retention: the kept entries are written, pending changes are left in place. */
  function Cleaned(s: State, drop: set<nat>, tokenize: string -> Tokens): State {
    var keep := Kept(s.cache, drop);
    if drop * Ids(s.cache) == {} then s
    else
      Reindexed(Written(s, keep).(cache := keep, tokens := AllTokens(keep, s.docs, tokenize), read := s.docs - drop,
                                  docs := s.docs - drop))
  }

  /** Before the first load. */
  function Unloaded(disk: seq<Entry>, docs: map<nat, string>): State {
    State(disk, docs, false, disk, docs, [], map[], None, {}, map[], false)
  }

  // ---------- the code ----------

  class MemoryManager {
    var s: State
    const tokenize: string -> Tokens

    constructor (loaded: State, tokenize: string -> Tokens)
      ensures s == loaded && this.tokenize == tokenize
    {
      s, this.tokenize := loaded, tokenize;
    }

    /** Search hits: weight + 1 for every matched entry that is still in the cache. */
    method ApplyHits(matched: set<nat>)
      requires Distinct(s.cache)
      modifies this`s
      ensures s == Adjusted(old(s), matched, 1)
    {
      ghost var was := s;
      ghost var bumped := Bumped(was.cache, matched, 1);
      var cache, pending := s.cache, s.pending;
      var i := 0;
      assert pending == Noted(was.pending, matched * Ids(was.cache[..0]), 1);
      while i < |cache|
        invariant 0 <= i <= |cache| == |was.cache| == |bumped| && s == was
        invariant forall j :: 0 <= j < i ==> cache[j] == bumped[j]
        invariant forall j :: i <= j < |cache| ==> cache[j] == was.cache[j]
        invariant pending == Noted(was.pending, matched * Ids(was.cache[..i]), 1)
      {
        NotedGrow(was, matched, i);
        if cache[i].id in matched {
          pending := pending[cache[i].id := Delta(pending, cache[i].id) + 1];
          cache := cache[i := cache[i].(weight := cache[i].weight + 1)];
        }
        i := i + 1;
      }
      assert was.cache[..i] == was.cache;
      assert cache == bumped;
      s := s.(cache := cache, pending := pending, dirty := true);
    }

    /** Feedback on one memory. */
    method UpdateWeight(id: nat, delta: int) returns (found: bool)
      requires Distinct(Refreshed(s, tokenize).cache)
      modifies this`s
      ensures found <==> id in Ids(Refreshed(old(s), tokenize).cache)
      ensures s == if found then Adjusted(Refreshed(old(s), tokenize), {id}, delta) else Refreshed(old(s), tokenize)
    {
      s, found := Weighed(Refreshed(s, tokenize), id, delta);
    }

    method Flush()
      modifies this`s
      ensures s == Flushed(old(s))
    {
      if !s.dirty {
        return;
      }
      s := s.(disk := s.cache, synced := s.cache, current := true);
      s := s.(pending := map[], dirty := false);
    }

    /** The corpus that scores the entries of a search: the cached object when the id sets
        agree, otherwise one built from the candidates.  Either way it is what building
        afresh would give. */
    method ScoringCorpus(candidates: seq<Entry>, ghost wanted: Entry -> bool) returns (corpus: Option<seq<Tokens>>)
      requires CacheInv(s) && candidates == Candidates(s.cache, wanted)
      ensures corpus == Built(TokenLists(candidates, s.tokens))
    {
      ScoredFresh(s, wanted);
      if Ids(candidates) == s.bm25Ids && s.bm25.Some? {
        corpus := s.bm25;
      } else {
        var lists := TokenLists(candidates, s.tokens);
        corpus := Built(lists);
      }
    }
  }

  /** The position of the entry, or the length if there is none. */
  method Find(es: seq<Entry>, id: nat) returns (i: nat)
    ensures i <= |es| && (i < |es| ==> es[i].id == id)
    ensures i < |es| <==> id in Ids(es)
  {
    i := 0;
    while i < |es| && es[i].id != id
      invariant i <= |es|
      invariant forall j :: 0 <= j < i ==> es[j].id != id
    {
      i := i + 1;
    }
  }

  /** The change of one weight in a refreshed cache. */
  method Weighed(r: State, id: nat, delta: int) returns (t: State, found: bool)
    requires Distinct(r.cache)
    ensures found <==> id in Ids(r.cache)
    ensures t == if found then Adjusted(r, {id}, delta) else r
  {
    var i := Find(r.cache, id);
    if i == |r.cache| {
      return r, false;
    }
    AdjustedOne(r, i, delta);
    t := r.(cache := r.cache[i := r.cache[i].(weight := r.cache[i].weight + delta)],
            pending := r.pending[id := Delta(r.pending, id) + delta], dirty := true);
    found := true;
  }

  lemma AdjustedOne(s: State, i: nat, delta: int)
    requires Distinct(s.cache) && i < |s.cache|
    ensures var e := s.cache[i];
            Adjusted(s, {e.id}, delta) == s.(cache := s.cache[i := e.(weight := e.weight + delta)],
              pending := s.pending[e.id := Delta(s.pending, e.id) + delta], dirty := true)
  {
    var e := s.cache[i];
    assert Bumped(s.cache, {e.id}, delta) == s.cache[i := e.(weight := e.weight + delta)];
    assert {e.id} * Ids(s.cache) == {e.id};
    assert Noted(s.pending, {e.id}, delta) == s.pending[e.id := Delta(s.pending, e.id) + delta];
  }

  function Scored(s: State, candidates: seq<Entry>): Option<seq<Tokens>> {
    if Ids(candidates) == s.bm25Ids && s.bm25.Some? then s.bm25 else Built(TokenLists(candidates, s.tokens))
  }

  lemma IdsGrow(es: seq<Entry>, i: nat)
    requires i < |es| && Distinct(es)
    ensures Ids(es[..i + 1]) == Ids(es[..i]) + {es[i].id} && es[i].id !in Ids(es[..i])
  {
    assert forall j :: 0 <= j < i ==> es[..i + 1][j] == es[..i][j];
    assert es[..i + 1][i] == es[i];
  }

  lemma NotedGrow(s: State, matched: set<nat>, i: nat)
    requires i < |s.cache| && Distinct(s.cache)
    ensures var id := s.cache[i].id;
            var before := Noted(s.pending, matched * Ids(s.cache[..i]), 1);
            Noted(s.pending, matched * Ids(s.cache[..i + 1]), 1) ==
              if id in matched then before[id := Delta(before, id) + 1] else before
  {
    var id := s.cache[i].id;
    IdsGrow(s.cache, i);
    if id !in matched {
      assert matched * Ids(s.cache[..i + 1]) == matched * Ids(s.cache[..i]);
    } else {
      assert matched * Ids(s.cache[..i + 1]) == matched * Ids(s.cache[..i]) + {id};
    }
  }

  // ---------- invariants ----------

  /** Ids are unique, in the cache and on disk, and every cached entry has tokens. */
  predicate Shaped(s: State) {
    Distinct(s.cache) && Distinct(s.disk) && forall i :: 0 <= i < |s.cache| ==> s.cache[i].id in s.tokens
  }

  /** Cached weight = weight last seen on disk + pending change, entry by entry; while the
      signature matches, that is the weight on disk. */
  predicate Balanced(s: State) {
    && s.cache == Reapplied(s.synced, s.pending)
    && (s.current ==> s.disk == s.synced)
  }

  /** Nothing pending without the flag that makes a flush write it. */
  predicate Flagged(s: State) {
    !s.dirty ==> forall id :: id in s.pending ==> s.pending[id] == 0
  }

  /** The cached object covers exactly the entries whose ids it remembers, in index order. */
  predicate Indexed(s: State) {
    s.bm25.Some? ==> s.bm25 == Built(TokenLists(Chosen(s.cache, s.bm25Ids), s.tokens))
  }

  predicate Inv(s: State) {
    Shaped(s) && Balanced(s) && Flagged(s) && Indexed(s)
  }

  datatype Step =
    | Edit(disk: seq<Entry>, docs: map<nat, string>)   // another process changes the files
    | Refresh
    | Hits(ids: set<nat>)
    | Feedback(id: nat, delta: int)
    | Flush
    | Save(k: nat, entry: Entry, summary: string)
    | Cleanup(drop: set<nat>)

  /** An edit leaves unique ids; a save goes to an entry of the same id, or takes a new id
      with weight zero. */
  predicate Enabled(s: State, step: Step, tokenize: string -> Tokens) {
    match step
    case Edit(disk, _) => Distinct(disk)
    case Save(k, e, _) =>
      var r := Refreshed(s, tokenize);
      if k < |r.cache| then e == r.cache[k].(userCall := e.userCall)
      else k == |r.cache| && e.id !in Ids(r.cache) && e.weight == 0
    case _ => true
  }

  function Next(s: State, step: Step, tokenize: string -> Tokens): State
    requires Enabled(s, step, tokenize)
  {
    match step
    case Edit(disk, docs) => s.(disk := disk, docs := docs, current := false)
    case Refresh => Refreshed(s, tokenize)
    case Hits(ids) => Adjusted(s, ids, 1)
    case Feedback(id, delta) =>
      var r := Refreshed(s, tokenize);
      if id in Ids(r.cache) then Adjusted(r, {id}, delta) else r
    case Flush => Flushed(s)
    case Save(k, e, summary) => Stored(Refreshed(s, tokenize), k, e, summary, tokenize)
    case Cleanup(drop) => Cleaned(Refreshed(s, tokenize), drop, tokenize)
  }

  // ---------- every step but cleanup keeps the books balanced ----------

  lemma {:induction false} ChosenSame(a: seq<Entry>, b: seq<Entry>, ids: set<nat>, tokens: map<nat, Tokens>)
    requires |a| == |b| && forall i :: 0 <= i < |a| ==> a[i].id == b[i].id
    ensures TokenLists(Chosen(a, ids), tokens) == TokenLists(Chosen(b, ids), tokens)
    decreases |a|
  {
    if a != [] {
      ChosenSame(a[1..], b[1..], ids, tokens);
      TokensCons(a[0], Chosen(a[1..], ids), tokens);
      TokensCons(b[0], Chosen(b[1..], ids), tokens);
    }
  }

  lemma TokensCons(e: Entry, rest: seq<Entry>, tokens: map<nat, Tokens>)
    ensures TokenLists([e] + rest, tokens) == TokenLists([e], tokens) + TokenLists(rest, tokens)
    ensures [] + rest == rest
  {
  }

  lemma ReloadInv(s: State, tokenize: string -> Tokens)
    requires Distinct(s.disk) && Flagged(s)
    ensures Inv(Reloaded(s, tokenize))
  {
    var cache := Reapplied(s.disk, s.pending);
    forall i | 0 <= i < |cache| ensures cache[i].id == s.disk[i].id {}
    assert Distinct(cache);
    assert AllTokens(cache, s.docs, tokenize).Keys == Ids(cache);
  }

  lemma RefreshInv(s: State, tokenize: string -> Tokens)
    requires Inv(s)
    ensures Inv(Refreshed(s, tokenize)) && Refreshed(s, tokenize).current
  {
    if !s.current {
      ReloadInv(s, tokenize);
    }
  }

  lemma AdjustInv(s: State, ids: set<nat>, delta: int)
    requires Inv(s)
    ensures Inv(Adjusted(s, ids, delta))
  {
    var t := Adjusted(s, ids, delta);
    forall i | 0 <= i < |s.cache|
      ensures t.cache[i].id == s.cache[i].id && t.cache[i] == Reapplied(t.synced, t.pending)[i]
    {
      assert s.cache[i] == Reapplied(s.synced, s.pending)[i];
      assert s.cache[i].id in Ids(s.cache);
      assert Delta(t.pending, s.cache[i].id) ==
             Delta(s.pending, s.cache[i].id) + if s.cache[i].id in ids then delta else 0;
    }
    ChosenSame(s.cache, t.cache, s.bm25Ids, s.tokens);
  }

  lemma NothingPending(es: seq<Entry>, pending: map<nat, int>)
    requires forall id :: id in pending ==> pending[id] == 0
    ensures Reapplied(es, pending) == es
  {
  }

  lemma FlushInv(s: State)
    requires Inv(s)
    ensures Inv(Flushed(s)) && (s.dirty ==> Flushed(s).disk == s.cache)
  {
    NothingPending(s.cache, map[]);
  }

  lemma StoreInv(s: State, k: nat, e: Entry, summary: string, tokenize: string -> Tokens)
    requires Inv(s) && k <= |s.cache|
    requires if k < |s.cache| then e.id == s.cache[k].id else e.id !in Ids(s.cache)
    ensures Inv(Stored(s, k, e, summary, tokenize))
  {
    var cache := if k == |s.cache| then s.cache + [e] else s.cache[k := e];
    StoredParts(s, k, e, summary, tokenize);
    StoredShape(s, k, e);
    NothingPending(cache, map[]);
  }

  lemma StoredShape(s: State, k: nat, e: Entry)
    requires Distinct(s.cache) && k <= |s.cache|
    requires if k < |s.cache| then e.id == s.cache[k].id else e.id !in Ids(s.cache)
    ensures var cache := if k == |s.cache| then s.cache + [e] else s.cache[k := e];
            Distinct(cache) && forall i :: 0 <= i < |cache| ==> cache[i].id == e.id || cache[i] in s.cache
  {
    var cache := if k == |s.cache| then s.cache + [e] else s.cache[k := e];
    assert forall i :: 0 <= i < |cache| && i != k ==> cache[i] == s.cache[i];
    assert cache[k] == e;
  }

  lemma StoredParts(s: State, k: nat, e: Entry, summary: string, tokenize: string -> Tokens)
    requires k <= |s.cache|
    ensures var t := Stored(s, k, e, summary, tokenize);
            && t.cache == (if k == |s.cache| then s.cache + [e] else s.cache[k := e])
            && t.disk == t.cache && t.synced == t.cache && t.pending == map[] && !t.dirty
            && t.tokens.Keys == s.tokens.Keys + {e.id} && Indexed(t)
  {
  }

  // ---------- what cleanup does to the books ----------

  lemma {:induction false} KeptPart(es: seq<Entry>, drop: set<nat>)
    requires Distinct(es)
    ensures Distinct(Kept(es, drop)) && forall e :: e in Kept(es, drop) <==> e in es && e.id !in drop
  {
    if es != [] {
      KeptPart(es[1..], drop);
      var rest := Kept(es[1..], drop);
      if es[0].id !in drop {
        var all := [es[0]] + rest;
        forall i, j | 0 <= i < j < |all| ensures all[i].id != all[j].id {
          if i == 0 {
            assert all[j] in rest && all[j] in es[1..];
          }
        }
      }
      assert es == [es[0]] + es[1..];
    }
  }

  predicate Survives(s: State, drop: set<nat>, id: nat) {
    id in Ids(s.cache) && id !in drop
  }

  /** Cleanup keeps the cached object sound in every case. */
  lemma CleanupIndexed(s: State, drop: set<nat>, tokenize: string -> Tokens)
    requires Inv(s)
    ensures var t := Cleaned(s, drop, tokenize); Shaped(t) && Flagged(t) && Indexed(t)
  {
    KeptPart(s.cache, drop);
  }

  lemma KeptUnchanged(s: State, drop: set<nat>)
    requires Inv(s) && forall id :: Survives(s, drop, id) ==> Delta(s.pending, id) == 0
    ensures Reapplied(Kept(s.cache, drop), s.pending) == Kept(s.cache, drop)
  {
    KeptPart(s.cache, drop);
    var keep := Kept(s.cache, drop);
    forall i | 0 <= i < |keep| ensures Reapplied(keep, s.pending)[i] == keep[i] {
      assert keep[i] in keep && keep[i] in s.cache;
      assert Survives(s, drop, keep[i].id);
    }
  }

  lemma KeptChanged(s: State, drop: set<nat>, id: nat)
    requires Inv(s) && Survives(s, drop, id) && Delta(s.pending, id) != 0
    ensures Reapplied(Kept(s.cache, drop), s.pending) != Kept(s.cache, drop)
  {
    KeptPart(s.cache, drop);
    var keep := Kept(s.cache, drop);
    var i :| 0 <= i < |s.cache| && s.cache[i].id == id;
    assert s.cache[i] in s.cache && s.cache[i] in keep;
    var j :| 0 <= j < |keep| && keep[j] == s.cache[i];
    assert Reapplied(keep, s.pending)[j].weight != keep[j].weight;
  }

  /** It keeps the books balanced exactly when no surviving entry has a pending change:
      the bumped weights are written, the changes stay pending. */
  lemma CleanupBalancedIff(s: State, drop: set<nat>, tokenize: string -> Tokens)
    requires Inv(s) && drop * Ids(s.cache) != {}
    ensures Balanced(Cleaned(s, drop, tokenize)) <==>
      forall id :: Survives(s, drop, id) ==> Delta(s.pending, id) == 0
  {
    if forall id :: Survives(s, drop, id) ==> Delta(s.pending, id) == 0 {
      KeptUnchanged(s, drop);
    } else {
      var id :| Survives(s, drop, id) && Delta(s.pending, id) != 0;
      KeptChanged(s, drop, id);
    }
  }

  /** Clearing the pending changes as the other writers do would restore the balance. */
  lemma CleanupSettled(s: State, drop: set<nat>, tokenize: string -> Tokens)
    requires Inv(s) && drop * Ids(s.cache) != {}
    ensures Inv(Settled(Cleaned(s, drop, tokenize)))
  {
    CleanupIndexed(s, drop, tokenize);
    NothingPending(Kept(s.cache, drop), map[]);
  }

  /** The error becomes visible when the files are touched before the next flush: a change
      that cleanup already wrote is added once more. */
  lemma CleanupCountsTwice(s: State, drop: set<nat>, tokenize: string -> Tokens, i: nat)
    requires Inv(s) && s.current && drop * Ids(s.cache) != {} && i < |Kept(s.cache, drop)|
    ensures var keep := Kept(s.cache, drop);
            var t := Cleaned(s, drop, tokenize);
            var touched := t.(current := false);
            Refreshed(touched, tokenize).cache[i].weight == keep[i].weight + Delta(s.pending, keep[i].id)
  {
  }

  // ---------- the ledger ----------

  /** A cleanup that finds pending changes of entries it keeps is not fair to them. */
  ghost predicate Fair(s: State, step: Step, tokenize: string -> Tokens) {
    step.Cleanup? ==>
      var r := Refreshed(s, tokenize);
      step.drop * Ids(r.cache) == {} || forall id :: Survives(r, step.drop, id) ==> Delta(r.pending, id) == 0
  }

  lemma StepInv(s: State, step: Step, tokenize: string -> Tokens)
    requires Inv(s) && Enabled(s, step, tokenize) && Fair(s, step, tokenize)
    ensures Inv(Next(s, step, tokenize))
  {
    RefreshInv(s, tokenize);
    var r := Refreshed(s, tokenize);
    match step {
      case Hits(ids) => AdjustInv(s, ids, 1);
      case Feedback(id, delta) => AdjustInv(r, {id}, delta);
      case Flush => FlushInv(s);
      case Save(k, e, summary) => StoreInv(r, k, e, summary, tokenize);
      case Cleanup(drop) =>
        if drop * Ids(r.cache) != {} {
          CleanupIndexed(r, drop, tokenize);
          CleanupBalancedIff(r, drop, tokenize);
        }
      case _ =>
    }
  }

  predicate Trace(s: State, steps: seq<Step>, tokenize: string -> Tokens, t: State)
    decreases |steps|
  {
    if steps == [] then s == t
    else Enabled(s, steps[0], tokenize) && Trace(Next(s, steps[0], tokenize), steps[1..], tokenize, t)
  }

  ghost predicate FairTrace(s: State, steps: seq<Step>, tokenize: string -> Tokens)
    decreases |steps|
  {
    steps != [] ==>
      Enabled(s, steps[0], tokenize) && Fair(s, steps[0], tokenize) &&
      FairTrace(Next(s, steps[0], tokenize), steps[1..], tokenize)
  }

  lemma {:induction false} TraceInv(s: State, steps: seq<Step>, tokenize: string -> Tokens, t: State)
    requires Inv(s) && Trace(s, steps, tokenize, t) && FairTrace(s, steps, tokenize)
    ensures Inv(t)
    decreases |steps|
  {
    if steps != [] {
      StepInv(s, steps[0], tokenize);
      TraceInv(Next(s, steps[0], tokenize), steps[1..], tokenize, t);
    }
  }

  /** The weight an index gives to an id. */
  function WeightIn(es: seq<Entry>, id: nat): int {
    if es == [] then 0 else if es[0].id == id then es[0].weight else WeightIn(es[1..], id)
  }

  lemma {:induction false} WeightAt(es: seq<Entry>, i: nat)
    requires Distinct(es) && i < |es|
    ensures WeightIn(es, es[i].id) == es[i].weight
  {
    if i > 0 {
      assert es[1..][i - 1] == es[i];
      WeightAt(es[1..], i - 1);
    }
  }

  /** What the file holds and what is still to be written. */
  function Weight(s: State, id: nat): int {
    WeightIn(s.disk, id) + Delta(s.pending, id)
  }

  predicate Present(s: State, id: nat) {
    id in Ids(s.cache) && id in Ids(s.disk)
  }

  /** What this process adds to the weight of id: one for a hit, the delta of a feedback. */
  function Credit(s: State, step: Step, id: nat): int {
    match step
    case Hits(ids) => if id in ids then 1 else 0
    case Feedback(i, delta) => if i == id then delta else 0
    case _ => 0
  }

  /** What another process changes. */
  function Foreign(s: State, step: Step, id: nat): int {
    if step.Edit? then WeightIn(step.disk, id) - WeightIn(s.disk, id) else 0
  }

  /** What a flush overwrites: the foreign changes since the cache last saw the file. */
  function Overwritten(s: State, step: Step, id: nat): int {
    if step.Flush? && s.dirty then WeightIn(s.disk, id) - WeightIn(s.synced, id) else 0
  }

  function Credits(s: State, steps: seq<Step>, tokenize: string -> Tokens, t: State, id: nat): int
    requires Trace(s, steps, tokenize, t)
    decreases |steps|
  {
    if steps == [] then 0
    else Credit(s, steps[0], id) + Credits(Next(s, steps[0], tokenize), steps[1..], tokenize, t, id)
  }

  function Foreigns(s: State, steps: seq<Step>, tokenize: string -> Tokens, t: State, id: nat): int
    requires Trace(s, steps, tokenize, t)
    decreases |steps|
  {
    if steps == [] then 0
    else Foreign(s, steps[0], id) + Foreigns(Next(s, steps[0], tokenize), steps[1..], tokenize, t, id)
  }

  function Losses(s: State, steps: seq<Step>, tokenize: string -> Tokens, t: State, id: nat): int
    requires Trace(s, steps, tokenize, t)
    decreases |steps|
  {
    if steps == [] then 0
    else Overwritten(s, steps[0], id) + Losses(Next(s, steps[0], tokenize), steps[1..], tokenize, t, id)
  }

  /** The entry exists throughout, in memory and in the file. */
  predicate Stays(s: State, steps: seq<Step>, tokenize: string -> Tokens, id: nat)
    decreases |steps|
  {
    Present(s, id) &&
    (steps != [] ==> Enabled(s, steps[0], tokenize) && Stays(Next(s, steps[0], tokenize), steps[1..], tokenize, id))
  }

  lemma ReappliedWeight(es: seq<Entry>, pending: map<nat, int>, id: nat)
    requires Distinct(es) && id in Ids(es)
    ensures WeightIn(Reapplied(es, pending), id) == WeightIn(es, id) + Delta(pending, id)
  {
    var i :| 0 <= i < |es| && es[i].id == id;
    var r := Reapplied(es, pending);
    forall j | 0 <= j < |r| ensures r[j].id == es[j].id {}
    WeightAt(es, i);
    WeightAt(r, i);
  }

  lemma ReappliedIds(es: seq<Entry>, pending: map<nat, int>)
    ensures Ids(Reapplied(es, pending)) == Ids(es)
  {
    var r := Reapplied(es, pending);
    forall j | 0 <= j < |r| ensures r[j].id == es[j].id {}
    forall id | id in Ids(es) ensures id in Ids(r) {
      var i :| 0 <= i < |es| && es[i].id == id;
      assert r[i].id == id;
    }
    forall id | id in Ids(r) ensures id in Ids(es) {
      var i :| 0 <= i < |r| && r[i].id == id;
      assert es[i].id == id;
    }
  }

  /** The cached weight is the last seen one and what is pending. */
  lemma CachedWeight(s: State, id: nat)
    requires Inv(s) && id in Ids(s.cache)
    ensures WeightIn(s.cache, id) == WeightIn(s.synced, id) + Delta(s.pending, id)
    ensures s.current ==> WeightIn(s.cache, id) == Weight(s, id)
  {
    ReappliedIds(s.synced, s.pending);
    forall i, j | 0 <= i < j < |s.synced| ensures s.synced[i].id != s.synced[j].id {
      assert s.cache[i].id == s.synced[i].id && s.cache[j].id == s.synced[j].id;
    }
    ReappliedWeight(s.synced, s.pending, id);
  }

  lemma StoredWeight(r: State, k: nat, e: Entry, id: nat)
    requires Inv(r) && k <= |r.cache| && id in Ids(r.cache)
    requires if k < |r.cache| then e == r.cache[k].(userCall := e.userCall) else e.id !in Ids(r.cache)
    ensures var cache := if k == |r.cache| then r.cache + [e] else r.cache[k := e];
            Distinct(cache) && WeightIn(cache, id) == WeightIn(r.cache, id)
  {
    var cache := if k == |r.cache| then r.cache + [e] else r.cache[k := e];
    assert Distinct(cache);
    var i :| 0 <= i < |r.cache| && r.cache[i].id == id;
    WeightAt(r.cache, i);
    WeightAt(cache, i);
  }

  lemma KeptWeight(es: seq<Entry>, drop: set<nat>, id: nat)
    requires Distinct(es) && id in Ids(Kept(es, drop))
    ensures id in Ids(es) && id !in drop && WeightIn(Kept(es, drop), id) == WeightIn(es, id)
  {
    var keep := Kept(es, drop);
    KeptPart(es, drop);
    var i :| 0 <= i < |keep| && keep[i].id == id;
    assert keep[i] in keep && keep[i] in es;
    var j :| 0 <= j < |es| && es[j] == keep[i];
    WeightAt(keep, i);
    WeightAt(es, j);
  }

  lemma RefreshedFiles(s: State, tokenize: string -> Tokens)
    ensures var r := Refreshed(s, tokenize); r.disk == s.disk && r.docs == s.docs && r.pending == s.pending
  {
  }

  lemma StoredFiles(r: State, k: nat, e: Entry, summary: string, tokenize: string -> Tokens)
    requires k <= |r.cache|
    ensures var t := Stored(r, k, e, summary, tokenize);
            t.disk == (if k == |r.cache| then r.cache + [e] else r.cache[k := e]) && t.pending == map[]
  {
  }

  lemma CleanedFiles(r: State, drop: set<nat>, tokenize: string -> Tokens)
    ensures var t := Cleaned(r, drop, tokenize);
            t.disk == (if drop * Ids(r.cache) == {} then r.disk else Kept(r.cache, drop)) && t.pending == r.pending
  {
  }

  lemma SaveLedger(r: State, k: nat, e: Entry, summary: string, tokenize: string -> Tokens, id: nat)
    requires Inv(r) && r.current && id in Ids(r.cache) && k <= |r.cache|
    requires if k < |r.cache| then e == r.cache[k].(userCall := e.userCall) else e.id !in Ids(r.cache)
    ensures Weight(Stored(r, k, e, summary, tokenize), id) == Weight(r, id)
  {
    StoredFiles(r, k, e, summary, tokenize);
    StoredWeight(r, k, e, id);
    CachedWeight(r, id);
  }

  lemma CleanupLedger(r: State, drop: set<nat>, tokenize: string -> Tokens, id: nat)
    requires Inv(r) && r.current && Present(Cleaned(r, drop, tokenize), id)
    requires drop * Ids(r.cache) == {} || forall i :: Survives(r, drop, i) ==> Delta(r.pending, i) == 0
    ensures Weight(Cleaned(r, drop, tokenize), id) == Weight(r, id)
  {
    CleanedFiles(r, drop, tokenize);
    if drop * Ids(r.cache) != {} {
      KeptWeight(r.cache, drop, id);
      CachedWeight(r, id);
      assert Survives(r, drop, id);
    }
  }

  lemma RefreshedIds(s: State, tokenize: string -> Tokens, id: nat)
    requires Present(s, id)
    ensures id in Ids(Refreshed(s, tokenize).cache)
  {
    ReappliedIds(s.disk, s.pending);
  }

  lemma AdjustLedger(s: State, ids: set<nat>, delta: int, id: nat)
    requires id in Ids(s.cache)
    ensures Weight(Adjusted(s, ids, delta), id) == Weight(s, id) + if id in ids then delta else 0
  {
  }

  lemma StepLedger(s: State, step: Step, tokenize: string -> Tokens, id: nat)
    requires Inv(s) && Enabled(s, step, tokenize) && Fair(s, step, tokenize)
    requires Present(s, id) && Present(Next(s, step, tokenize), id)
    ensures Weight(Next(s, step, tokenize), id) ==
            Weight(s, id) + Credit(s, step, id) + Foreign(s, step, id) - Overwritten(s, step, id)
  {
    match step {
      case Edit(_, _) =>
      case Flush => CachedWeight(s, id);
      case Hits(ids) => AdjustLedger(s, ids, 1, id);
      case _ => RefreshedLedger(s, step, tokenize, id);
    }
  }

  /** What a step that refreshes first makes of the refreshed state. */
  ghost predicate Follows(r: State, step: Step, tokenize: string -> Tokens, t: State) {
    match step
    case Refresh => t == r
    case Feedback(i, delta) => t == if i in Ids(r.cache) then Adjusted(r, {i}, delta) else r
    case Save(k, e, summary) =>
      && k <= |r.cache| && t == Stored(r, k, e, summary, tokenize)
      && if k < |r.cache| then e == r.cache[k].(userCall := e.userCall) else e.id !in Ids(r.cache)
    case Cleanup(drop) =>
      && t == Cleaned(r, drop, tokenize)
      && (drop * Ids(r.cache) == {} || forall i :: Survives(r, drop, i) ==> Delta(r.pending, i) == 0)
    case _ => false
  }

  lemma FollowingLedger(r: State, step: Step, tokenize: string -> Tokens, t: State, id: nat)
    requires Inv(r) && r.current && id in Ids(r.cache) && Present(t, id) && Follows(r, step, tokenize, t)
    ensures Weight(t, id) == Weight(r, id) + Credit(r, step, id)
  {
    match step {
      case Refresh =>
      case Feedback(i, delta) => AdjustLedger(r, {i}, delta, id);
      case Save(k, e, summary) => SaveLedger(r, k, e, summary, tokenize, id);
      case Cleanup(drop) => CleanupLedger(r, drop, tokenize, id);
    }
  }

  lemma RefreshedLedger(s: State, step: Step, tokenize: string -> Tokens, id: nat)
    requires Inv(s) && Enabled(s, step, tokenize) && Fair(s, step, tokenize)
    requires step.Refresh? || step.Feedback? || step.Save? || step.Cleanup?
    requires Present(s, id) && Present(Next(s, step, tokenize), id)
    ensures Weight(Next(s, step, tokenize), id) == Weight(s, id) + Credit(s, step, id)
  {
    RefreshInv(s, tokenize);
    RefreshedFiles(s, tokenize);
    RefreshedIds(s, tokenize, id);
    FollowingLedger(Refreshed(s, tokenize), step, tokenize, Next(s, step, tokenize), id);
  }

  /** In every run, over hits, feedback, flushes, saves, reloads and foreign changes: the
      weight of an entry is what it was, plus every hit and feedback exactly once, plus the
      foreign changes, minus those that flushes have overwritten. */
  lemma {:induction false} Ledger(s: State, steps: seq<Step>, tokenize: string -> Tokens, t: State, id: nat)
    requires Inv(s) && Trace(s, steps, tokenize, t) && FairTrace(s, steps, tokenize) && Stays(s, steps, tokenize, id)
    ensures Weight(t, id) == Weight(s, id) + Credits(s, steps, tokenize, t, id) +
                             Foreigns(s, steps, tokenize, t, id) - Losses(s, steps, tokenize, t, id)
    ensures t.current ==> WeightIn(t.cache, id) == Weight(t, id)
    decreases |steps|
  {
    if steps == [] {
      CachedWeight(s, id);
    } else {
      StepInv(s, steps[0], tokenize);
      StepLedger(s, steps[0], tokenize, id);
      Ledger(Next(s, steps[0], tokenize), steps[1..], tokenize, t, id);
    }
  }

  /** A flush writes exactly the weight of the ledger, foreign changes included, unless it
      is made over a foreign change of this entry that the cache has not seen. */
  lemma FlushKeepsIff(s: State, id: nat)
    requires Inv(s) && Present(s, id)
    ensures Weight(Flushed(s), id) == Weight(s, id) <==>
            s.current || !s.dirty || WeightIn(s.disk, id) == WeightIn(s.synced, id)
    ensures s.dirty ==> WeightIn(Flushed(s).disk, id) == WeightIn(s.synced, id) + Delta(s.pending, id)
  {
    CachedWeight(s, id);
  }

  /** Every flush of the run finds the file as the cache last saw it, or nothing to write. */
  predicate SeesAll(s: State, steps: seq<Step>, tokenize: string -> Tokens, id: nat)
    decreases |steps|
  {
    steps != [] ==>
      && Enabled(s, steps[0], tokenize)
      && (steps[0].Flush? ==> s.current || !s.dirty || WeightIn(s.disk, id) == WeightIn(s.synced, id))
      && SeesAll(Next(s, steps[0], tokenize), steps[1..], tokenize, id)
  }

  lemma {:induction false} NoLosses(s: State, steps: seq<Step>, tokenize: string -> Tokens, t: State, id: nat)
    requires Inv(s) && Trace(s, steps, tokenize, t) && FairTrace(s, steps, tokenize) && SeesAll(s, steps, tokenize, id)
    ensures Losses(s, steps, tokenize, t, id) == 0
    decreases |steps|
  {
    if steps != [] {
      StepInv(s, steps[0], tokenize);
      NoLosses(Next(s, steps[0], tokenize), steps[1..], tokenize, t, id);
    }
  }

  /** Then each hit, feedback and foreign change counts exactly once. */
  lemma CountedOnce(s: State, steps: seq<Step>, tokenize: string -> Tokens, t: State, id: nat)
    requires Inv(s) && Trace(s, steps, tokenize, t) && FairTrace(s, steps, tokenize) && Stays(s, steps, tokenize, id)
    requires SeesAll(s, steps, tokenize, id)
    ensures Weight(t, id) ==
            Weight(s, id) + Credits(s, steps, tokenize, t, id) + Foreigns(s, steps, tokenize, t, id)
  {
    Ledger(s, steps, tokenize, t, id);
    NoLosses(s, steps, tokenize, t, id);
  }

  /** A hit here, a hit in another process, and a flush: two hits, and the file says one. */
  lemma LostUpdate(e: Entry, docs: map<nat, string>, tokenize: string -> Tokens) returns (s: State, t: State)
    requires e.weight == 0
    ensures s == Reloaded(Unloaded([e], docs), tokenize) && Inv(s)
    ensures Trace(s, [Hits({e.id}), Edit([e.(weight := 1)], docs), Flush], tokenize, t) && Inv(t)
    ensures t.disk == [e.(weight := 1)] && t.pending == map[]
  {
    s := Reloaded(Unloaded([e], docs), tokenize);
    LoadInv([e], docs, tokenize);
    assert s.cache == [e];
    assert Ids([e]) == {e.id};
    var s1 := Adjusted(s, {e.id}, 1);
    AdjustInv(s, {e.id}, 1);
    assert s1.cache == [e.(weight := 1)];
    var s2 := s1.(disk := [e.(weight := 1)], current := false);
    t := Flushed(s2);
    FlushInv(s2);
    var steps := [Hits({e.id}), Edit([e.(weight := 1)], docs), Flush];
    assert steps[1..] == [Edit([e.(weight := 1)], docs), Flush] && steps[1..][1..] == [Flush] && [Flush][1..] == [];
    assert Trace(t, [], tokenize, t);
    assert Trace(s2, [Flush], tokenize, t);
    assert Next(s1, Edit([e.(weight := 1)], docs), tokenize) == s2;
    assert Trace(s1, steps[1..], tokenize, t);
  }

  // ---------- the cached corpus ----------

  /** The part of the invariant that survives cleanup as well. */
  predicate CacheInv(s: State) {
    Shaped(s) && Indexed(s)
  }

  lemma AdjustCache(s: State, ids: set<nat>, delta: int)
    requires CacheInv(s)
    ensures CacheInv(Adjusted(s, ids, delta))
  {
    var t := Adjusted(s, ids, delta);
    forall i | 0 <= i < |s.cache| ensures t.cache[i].id == s.cache[i].id {}
    ChosenSame(s.cache, t.cache, s.bm25Ids, s.tokens);
  }

  lemma RefreshCache(s: State, tokenize: string -> Tokens)
    requires CacheInv(s)
    ensures CacheInv(Refreshed(s, tokenize))
  {
    if !s.current {
      var cache := Reapplied(s.disk, s.pending);
      forall i | 0 <= i < |cache| ensures cache[i].id == s.disk[i].id {}
      assert AllTokens(cache, s.docs, tokenize).Keys == Ids(cache);
    }
  }

  lemma StoreCache(s: State, k: nat, e: Entry, summary: string, tokenize: string -> Tokens)
    requires CacheInv(s) && k <= |s.cache|
    requires if k < |s.cache| then e.id == s.cache[k].id else e.id !in Ids(s.cache)
    ensures CacheInv(Stored(s, k, e, summary, tokenize))
  {
    assert Distinct(Stored(s, k, e, summary, tokenize).cache);
  }

  lemma CleanCache(s: State, drop: set<nat>, tokenize: string -> Tokens)
    requires CacheInv(s)
    ensures CacheInv(Cleaned(s, drop, tokenize))
  {
    KeptPart(s.cache, drop);
  }

  lemma StepCache(s: State, step: Step, tokenize: string -> Tokens)
    requires CacheInv(s) && Enabled(s, step, tokenize)
    ensures CacheInv(Next(s, step, tokenize))
  {
    RefreshCache(s, tokenize);
    var r := Refreshed(s, tokenize);
    match step {
      case Hits(ids) => AdjustCache(s, ids, 1);
      case Feedback(id, delta) => AdjustCache(r, {id}, delta);
      case Save(k, e, summary) => StoreCache(r, k, e, summary, tokenize);
      case Cleanup(drop) => CleanCache(r, drop, tokenize);
      case _ =>
    }
  }

  lemma {:induction false} TraceCache(s: State, steps: seq<Step>, tokenize: string -> Tokens, t: State)
    requires CacheInv(s) && Trace(s, steps, tokenize, t)
    ensures CacheInv(t)
    decreases |steps|
  {
    if steps != [] {
      StepCache(s, steps[0], tokenize);
      TraceCache(Next(s, steps[0], tokenize), steps[1..], tokenize, t);
    }
  }

  // ---------- the cached scorer ----------

  /** The entries a search considers: shown, and of the wanted date. */
  function Candidates(es: seq<Entry>, wanted: Entry -> bool): seq<Entry> {
    if es == [] then []
    else (if Shown(es[0]) && wanted(es[0]) then [es[0]] else []) + Candidates(es[1..], wanted)
  }

  lemma {:induction false} CandidatesFrom(es: seq<Entry>, wanted: Entry -> bool)
    ensures forall e :: e in Candidates(es, wanted) <==> e in es && Shown(e) && wanted(e)
  {
    if es != [] {
      CandidatesFrom(es[1..], wanted);
      assert es == [es[0]] + es[1..];
    }
  }

  /** In a list with unique ids, choosing by the candidates' ids gives the candidates. */
  lemma {:induction false} ChosenCandidates(es: seq<Entry>, wanted: Entry -> bool, ids: set<nat>)
    requires Distinct(es)
    requires forall i :: 0 <= i < |es| ==> (es[i].id in ids <==> Shown(es[i]) && wanted(es[i]))
    ensures Chosen(es, ids) == Candidates(es, wanted)
  {
    if es != [] {
      ChosenCandidates(es[1..], wanted, ids);
    }
  }

  lemma CandidateIds(es: seq<Entry>, wanted: Entry -> bool, i: nat)
    requires Distinct(es) && i < |es|
    ensures es[i].id in Ids(Candidates(es, wanted)) <==> Shown(es[i]) && wanted(es[i])
  {
    var cs := Candidates(es, wanted);
    CandidatesFrom(es, wanted);
    if es[i].id in Ids(cs) {
      var j :| 0 <= j < |cs| && cs[j].id == es[i].id;
      assert cs[j] in cs && cs[j] in es;
      var k :| 0 <= k < |es| && es[k] == cs[j];
      assert k == i;
    }
    if Shown(es[i]) && wanted(es[i]) {
      assert es[i] in es && es[i] in cs;
      var j :| 0 <= j < |cs| && cs[j] == es[i];
      assert cs[j].id in Ids(cs);
    }
  }

  lemma ScoredFresh(s: State, wanted: Entry -> bool)
    requires CacheInv(s)
    ensures Scored(s, Candidates(s.cache, wanted)) == Built(TokenLists(Candidates(s.cache, wanted), s.tokens))
  {
    var cs := Candidates(s.cache, wanted);
    if Ids(cs) == s.bm25Ids && s.bm25.Some? {
      forall i | 0 <= i < |s.cache| ensures s.cache[i].id in s.bm25Ids <==> Shown(s.cache[i]) && wanted(s.cache[i]) {
        CandidateIds(s.cache, wanted, i);
      }
      ChosenCandidates(s.cache, wanted, s.bm25Ids);
    }
  }

  // ---------- tokens and documents ----------

  /** The tokens of every entry are those of its call and the summary last read for it. */
  predicate Tokenized(s: State, tokenize: string -> Tokens) {
    forall i :: 0 <= i < |s.cache| ==>
      s.cache[i].id in s.tokens && s.tokens[s.cache[i].id] == tokenize(Document(s.cache[i], s.read))
  }

  /** While the signature matches, the summaries are those of the files. */
  predicate Known(s: State) {
    s.current ==> s.read == s.docs
  }

  lemma {:induction false} TokensOf(es: seq<Entry>, docs: map<nat, string>, tokenize: string -> Tokens, i: nat)
    requires Distinct(es) && i < |es|
    ensures es[i].id in AllTokens(es, docs, tokenize)
    ensures AllTokens(es, docs, tokenize)[es[i].id] == tokenize(Document(es[i], docs))
    decreases |es|
  {
    var n := |es| - 1;
    if i < n {
      TokensOf(es[..n], docs, tokenize, i);
      assert es[..n][i] == es[i];
    }
  }

  lemma ReloadTokens(s: State, tokenize: string -> Tokens)
    requires Distinct(s.disk)
    ensures Tokenized(Reloaded(s, tokenize), tokenize) && Known(Reloaded(s, tokenize))
  {
    var cache := Reapplied(s.disk, s.pending);
    forall i | 0 <= i < |cache| ensures cache[i].id == s.disk[i].id {}
    forall i | 0 <= i < |cache|
      ensures var all := AllTokens(cache, s.docs, tokenize);
              cache[i].id in all && all[cache[i].id] == tokenize(Document(cache[i], s.docs))
    {
      TokensOf(cache, s.docs, tokenize, i);
    }
  }

  lemma CleanTokens(r: State, drop: set<nat>, tokenize: string -> Tokens)
    requires CacheInv(r) && drop * Ids(r.cache) != {}
    ensures Tokenized(Cleaned(r, drop, tokenize), tokenize) && Known(Cleaned(r, drop, tokenize))
  {
    var keep := Kept(r.cache, drop);
    KeptPart(r.cache, drop);
    forall i | 0 <= i < |keep|
      ensures var all := AllTokens(keep, r.docs, tokenize);
              keep[i].id in all && all[keep[i].id] == tokenize(Document(keep[i], r.docs - drop))
    {
      TokensOf(keep, r.docs, tokenize, i);
      assert keep[i] in keep;
      assert Summary(r.docs - drop, keep[i].id) == Summary(r.docs, keep[i].id);
    }
  }

  lemma StoreTokens(r: State, k: nat, e: Entry, summary: string, tokenize: string -> Tokens)
    requires CacheInv(r) && Tokenized(r, tokenize) && k <= |r.cache|
    requires if k < |r.cache| then e.id == r.cache[k].id else e.id !in Ids(r.cache)
    ensures Tokenized(Stored(r, k, e, summary, tokenize), tokenize)
    ensures Known(r) && r.current ==> Known(Stored(r, k, e, summary, tokenize))
  {
    var t := Stored(r, k, e, summary, tokenize);
    assert Distinct(t.cache);
    forall i | 0 <= i < |t.cache|
      ensures t.cache[i].id in t.tokens && t.tokens[t.cache[i].id] == tokenize(Document(t.cache[i], t.read))
    {
      if i == k {
        assert Document(e, t.docs) == Document(e, t.read);
      } else {
        assert t.cache[i] == r.cache[i] && t.cache[i].id != e.id;
        assert Summary(t.read, t.cache[i].id) == Summary(r.read, t.cache[i].id);
      }
    }
  }

  lemma RefreshTokens(s: State, tokenize: string -> Tokens)
    requires CacheInv(s) && Tokenized(s, tokenize) && Known(s)
    ensures var r := Refreshed(s, tokenize);
            Tokenized(r, tokenize) && Known(r) && r.current && CacheInv(r)
  {
    RefreshCache(s, tokenize);
    if !s.current {
      ReloadTokens(s, tokenize);
    }
  }

  lemma AdjustTokens(s: State, ids: set<nat>, delta: int, tokenize: string -> Tokens)
    requires Tokenized(s, tokenize) && Known(s)
    ensures Tokenized(Adjusted(s, ids, delta), tokenize) && Known(Adjusted(s, ids, delta))
  {
    var t := Adjusted(s, ids, delta);
    forall i | 0 <= i < |t.cache| ensures Document(t.cache[i], t.read) == Document(s.cache[i], s.read) {}
  }

  lemma FlushTokens(s: State, tokenize: string -> Tokens)
    requires Tokenized(s, tokenize) && Known(s)
    ensures Tokenized(Flushed(s), tokenize) && (Known(Flushed(s)) <==> !(s.dirty && s.read != s.docs))
  {
  }

  lemma CleanupTokens(r: State, drop: set<nat>, tokenize: string -> Tokens)
    requires CacheInv(r) && Tokenized(r, tokenize) && Known(r)
    ensures Tokenized(Cleaned(r, drop, tokenize), tokenize) && Known(Cleaned(r, drop, tokenize))
  {
    if drop * Ids(r.cache) != {} {
      CleanTokens(r, drop, tokenize);
    }
  }

  /** Every step keeps the tokens true to what was read; a flush alone can call summaries
      current that another process has changed. */
  lemma StepTokens(s: State, step: Step, tokenize: string -> Tokens)
    requires CacheInv(s) && Tokenized(s, tokenize) && Known(s) && Enabled(s, step, tokenize)
    ensures Tokenized(Next(s, step, tokenize), tokenize)
    ensures Known(Next(s, step, tokenize)) <==> !(step.Flush? && s.dirty && s.read != s.docs)
  {
    RefreshTokens(s, tokenize);
    var r := Refreshed(s, tokenize);
    match step {
      case Edit(_, _) =>
      case Refresh =>
      case Hits(ids) => AdjustTokens(s, ids, 1, tokenize);
      case Feedback(id, delta) => AdjustTokens(r, {id}, delta, tokenize);
      case Flush => FlushTokens(s, tokenize);
      case Save(k, e, summary) => StoreTokens(r, k, e, summary, tokenize);
      case Cleanup(drop) => CleanupTokens(r, drop, tokenize);
    }
  }

  /** No flush of the run is made over summaries that the cache has not read. */
  predicate ReadsAll(s: State, steps: seq<Step>, tokenize: string -> Tokens)
    decreases |steps|
  {
    steps != [] ==>
      && Enabled(s, steps[0], tokenize)
      && !(steps[0].Flush? && s.dirty && s.read != s.docs)
      && ReadsAll(Next(s, steps[0], tokenize), steps[1..], tokenize)
  }

  lemma {:induction false} TraceTokens(s: State, steps: seq<Step>, tokenize: string -> Tokens, t: State)
    requires CacheInv(s) && Tokenized(s, tokenize) && Known(s)
    requires Trace(s, steps, tokenize, t) && ReadsAll(s, steps, tokenize)
    ensures CacheInv(t) && Tokenized(t, tokenize) && Known(t)
    decreases |steps|
  {
    if steps != [] {
      StepCache(s, steps[0], tokenize);
      StepTokens(s, steps[0], tokenize);
      TraceTokens(Next(s, steps[0], tokenize), steps[1..], tokenize, t);
    }
  }

  /** In every reachable state, after saves, weight changes across the threshold, cleanups
      and reloads, a search scores with exactly the corpus it would build afresh. */
  lemma CachedScorerExact(s: State, steps: seq<Step>, tokenize: string -> Tokens, t: State, wanted: Entry -> bool)
    requires CacheInv(s) && Trace(s, steps, tokenize, t)
    ensures var cs := Candidates(t.cache, wanted);
            Scored(t, cs) == Built(TokenLists(cs, t.tokens))
  {
    TraceCache(s, steps, tokenize, t);
    ScoredFresh(t, wanted);
  }

  function DocumentTokens(es: seq<Entry>, docs: map<nat, string>, tokenize: string -> Tokens): seq<Tokens> {
    seq(|es|, i requires 0 <= i < |es| => tokenize(Document(es[i], docs)))
  }

  /** Right after the refresh that precedes every search, that corpus is made of the very
      summaries in the files, unless a flush has hidden a change of theirs. */
  lemma SearchesFiles(s: State, steps: seq<Step>, tokenize: string -> Tokens, t: State, wanted: Entry -> bool)
    requires CacheInv(s) && Tokenized(s, tokenize) && Known(s)
    requires Trace(s, steps, tokenize, t) && ReadsAll(s, steps, tokenize)
    ensures var r := Refreshed(t, tokenize);
            var cs := Candidates(r.cache, wanted);
            Scored(r, cs) == Built(DocumentTokens(cs, t.docs, tokenize))
  {
    TraceTokens(s, steps, tokenize, t);
    StepCache(t, Refresh, tokenize);
    StepTokens(t, Refresh, tokenize);
    RefreshTokens(t, tokenize);
    RefreshedFiles(t, tokenize);
    ScoredDocuments(Refreshed(t, tokenize), tokenize, wanted);
  }

  lemma ScoredDocuments(r: State, tokenize: string -> Tokens, wanted: Entry -> bool)
    requires CacheInv(r) && Tokenized(r, tokenize)
    ensures var cs := Candidates(r.cache, wanted);
            Scored(r, cs) == Built(DocumentTokens(cs, r.read, tokenize))
  {
    var cs := Candidates(r.cache, wanted);
    ScoredFresh(r, wanted);
    CandidatesFrom(r.cache, wanted);
    forall i | 0 <= i < |cs| ensures TokenLists(cs, r.tokens)[i] == tokenize(Document(cs[i], r.read)) {
      assert cs[i] in cs && cs[i] in r.cache;
    }
    assert TokenLists(cs, r.tokens) == DocumentTokens(cs, r.read, tokenize);
  }

  /** The same spelled out.  The entries scored are those of weight -5 or more that are
      wanted; each contributes the tokens of its call, a blank and its summary in the files;
      without any token there is no corpus. */
  lemma SearchCorpus(s: State, steps: seq<Step>, tokenize: string -> Tokens, t: State, wanted: Entry -> bool)
    requires CacheInv(s) && Tokenized(s, tokenize) && Known(s)
    requires Trace(s, steps, tokenize, t) && ReadsAll(s, steps, tokenize)
    ensures var r := Refreshed(t, tokenize);
            var cs := Candidates(r.cache, wanted);
            var lists := seq(|cs|, i requires 0 <= i < |cs| =>
              tokenize(cs[i].userCall + " " + if cs[i].id in t.docs then t.docs[cs[i].id] else ""));
            && (forall e :: e in cs <==> e in r.cache && e.weight >= -5 && wanted(e))
            && Scored(r, cs) == if forall i :: 0 <= i < |lists| ==> lists[i] == [] then None else Some(lists)
  {
    SearchesFiles(s, steps, tokenize, t, wanted);
    var cs := Candidates(Refreshed(t, tokenize).cache, wanted);
    CandidatesFrom(Refreshed(t, tokenize).cache, wanted);
    CorpusSpelled(cs, t.docs, tokenize);
  }

  lemma CorpusSpelled(cs: seq<Entry>, docs: map<nat, string>, tokenize: string -> Tokens)
    ensures var lists := seq(|cs|, i requires 0 <= i < |cs| =>
              tokenize(cs[i].userCall + " " + if cs[i].id in docs then docs[cs[i].id] else ""));
            Built(DocumentTokens(cs, docs, tokenize)) ==
              if forall i :: 0 <= i < |lists| ==> lists[i] == [] then None else Some(lists)
  {
    var lists := seq(|cs|, i requires 0 <= i < |cs| =>
      tokenize(cs[i].userCall + " " + if cs[i].id in docs then docs[cs[i].id] else ""));
    forall i | 0 <= i < |cs| ensures DocumentTokens(cs, docs, tokenize)[i] == lists[i] {
      assert cs[i].userCall + " " + Summary(docs, cs[i].id) == Document(cs[i], docs);
    }
    assert DocumentTokens(cs, docs, tokenize) == lists;
  }

  /** Candidates keep the order of the index, and so do the entries a cleanup keeps. */
  lemma {:induction false} CandidatesInOrder(es: seq<Entry>, wanted: Entry -> bool)
    ensures Candidates(es, wanted) == Where(es, (e: Entry) => e.weight >= -5 && wanted(e))
  {
    if es != [] {
      CandidatesInOrder(es[1..], wanted);
    }
  }

  lemma {:induction false} KeptInOrder(es: seq<Entry>, drop: set<nat>)
    ensures Kept(es, drop) == Where(es, (e: Entry) => e.id !in drop)
  {
    if es != [] {
      KeptInOrder(es[1..], drop);
    }
  }

  /** What a stale cache becomes: the entries on disk, each with its weight there and what
      was still to be written. */
  lemma RefreshedCache(s: State, tokenize: string -> Tokens, i: nat)
    requires !s.current && i < |s.disk|
    ensures var r := Refreshed(s, tokenize);
            && |r.cache| == |s.disk| && r.current && r.disk == s.disk && r.pending == s.pending && r.docs == s.docs
            && var e := s.disk[i];
               r.cache[i] == e.(weight := e.weight + if e.id in s.pending then s.pending[e.id] else 0)
  {
    assert Reapplied(s.disk, s.pending)[i].id == s.disk[i].id;
  }

  /** After a refresh the cached object is for the entries of weight -5 or more, and for all of
      them; it is the one a search without a date filter uses. */
  lemma RefreshedIndex(s: State, tokenize: string -> Tokens, e: Entry)
    requires CacheInv(s)
    ensures var r := Refreshed(s, tokenize);
            e in r.cache ==> (e.id in r.bm25Ids <==> e.weight >= -5)
    ensures forall id :: id in Refreshed(s, tokenize).bm25Ids ==> id in Ids(Refreshed(s, tokenize).cache)
  {
    var r := Refreshed(s, tokenize);
    RefreshCache(s, tokenize);
    if e in r.cache {
      ShownDistinct(r.cache, e);
    }
  }

  lemma ShownDistinct(es: seq<Entry>, e: Entry)
    requires Distinct(es) && e in es
    ensures e.id in ShownIds(es) <==> e.weight >= -5
  {
    var i :| 0 <= i < |es| && es[i] == e;
    if e.id in ShownIds(es) {
      var j :| 0 <= j < |es| && Shown(es[j]) && es[j].id == e.id;
      assert j == i;
    }
  }

  /** A save puts the entry into cache and file, its summary into the daily file, and
      leaves nothing to be written. */
  lemma SavedEntry(r: State, k: nat, e: Entry, summary: string, tokenize: string -> Tokens)
    requires k <= |r.cache|
    ensures var t := Stored(r, k, e, summary, tokenize);
            && t.disk == t.cache && k < |t.cache| && t.cache[k] == e && |t.cache| <= |r.cache| + 1
            && (forall i :: 0 <= i < |r.cache| && i != k ==> t.cache[i] == r.cache[i])
            && t.docs == r.docs[e.id := summary] && t.pending == map[] && !t.dirty
            && e.id in t.tokens && t.tokens[e.id] == tokenize(e.userCall + " " + summary)
            && forall id :: id != e.id ==>
                 && (id in t.tokens <==> id in r.tokens)
                 && (id in r.tokens ==> t.tokens[id] == r.tokens[id])
  {
    assert Summary(r.docs[e.id := summary], e.id) == summary;
  }

  /** The first load starts such a run. */
  lemma LoadInv(disk: seq<Entry>, docs: map<nat, string>, tokenize: string -> Tokens)
    requires Distinct(disk)
    ensures var s := Reloaded(Unloaded(disk, docs), tokenize);
            Inv(s) && CacheInv(s) && Tokenized(s, tokenize) && Known(s)
  {
    ReloadTokens(Unloaded(disk, docs), tokenize);
    ReloadInv(Unloaded(disk, docs), tokenize);
  }
}
