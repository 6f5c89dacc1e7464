/** The bounded capture of a process's output stream: `_BoundedStreamBuffer`
    (core/shell.py).  It keeps a head and a tail of the stream and forgets the middle. */
module BoundedBuffer {

  type Bytes = seq<bv8>

  /** A limit that is not positive means no limit. */
  function Limit(requested: int): nat {
    if requested < 0 then 0 else requested
  }

  function HeadCap(limit: nat): nat {
    limit / 2
  }

  function TailCap(limit: nat): nat {
    limit - HeadCap(limit)
  }

  function Last(s: Bytes, n: nat): (r: Bytes)
    ensures |r| == if |s| <= n then |s| else n
  {
    if |s| <= n then s else s[|s| - n..]
  }

  // ---------- what a stream leaves behind, whatever its chunks ----------

  function Head(stream: Bytes, limit: nat): Bytes {
    if limit == 0 || |stream| <= HeadCap(limit) then stream else stream[..HeadCap(limit)]
  }

  function Rest(stream: Bytes, limit: nat): Bytes {
    if limit == 0 || |stream| <= HeadCap(limit) then [] else stream[HeadCap(limit)..]
  }

  function Tail(stream: Bytes, limit: nat): Bytes {
    Last(Rest(stream, limit), TailCap(limit))
  }

  predicate Flag(stream: Bytes, limit: nat) {
    limit > 0 && |stream| > HeadCap(limit)
  }

  function Shown(stream: Bytes, limit: nat, mark: Bytes): Bytes {
    Head(stream, limit) + (if Flag(stream, limit) then mark else []) + Tail(stream, limit)
  }

  /** The first n chunks, one after the other. */
  function Joined(chunks: seq<Bytes>, n: nat): Bytes
    requires n <= |chunks|
  {
    if n == 0 then [] else Joined(chunks, n - 1) + chunks[n - 1]
  }

  // ---------- the code ----------

  class BoundedStreamBuffer {
    const limit: nat
    const mark: Bytes
    var head: Bytes
    var tail: Bytes
    var droppedMiddle: bool

    /** The fields hold what this stream leaves behind. */
    ghost predicate Holds(stream: Bytes)
      reads this
    {
      head == Head(stream, limit) && tail == Tail(stream, limit) && droppedMiddle == Flag(stream, limit)
    }

    constructor (requested: int, mark: Bytes)
      ensures limit == Limit(requested) && this.mark == mark && Holds([])
    {
      this.limit := if requested < 0 then 0 else requested;
      this.mark := mark;
      head, tail, droppedMiddle := [], [], false;
    }

    method Append(data: Bytes, ghost stream: Bytes)
      requires Holds(stream)
      modifies this
      ensures Holds(stream + data)
    {
      Appended(stream, data, limit);
      Push(data);
    }

    /** What `append` does to the three fields. */
    method Push(data: Bytes)
      modifies this
      ensures var n := Taken(|old(head)|, |data|, limit);
              && head == old(head) + data[..n]
              && tail == (if n == |data| then old(tail) else Last(old(tail) + data[n..], TailCap(limit)))
              && (droppedMiddle <==> old(droppedMiddle) || n < |data|)
    {
      if |data| == 0 {
        return;
      }
      if limit == 0 {
        head := head + data;
        return;
      }
      var left := data;
      if |head| < HeadCap(limit) {
        var room := HeadCap(limit) - |head|;
        var taken := if |left| < room then |left| else room;
        head := head + left[..taken];
        left := left[taken..];
      }
      if |left| == 0 {
        return;
      }
      droppedMiddle := true;
      tail := tail + left;
      var overflow := |tail| - TailCap(limit);
      if overflow > 0 {
        tail := tail[overflow..];
      }
    }

    method Value() returns (out: Bytes)
      ensures forall stream :: Holds(stream) ==> out == Shown(stream, limit, mark)
    {
      out := head;
      if droppedMiddle {
        out := out + mark;
      }
      out := out + tail;
    }

    /** The reader thread: chunks until the first empty one. */
    method Drain(chunks: seq<Bytes>) returns (read: nat)
      requires Holds([])
      modifies this
      ensures read <= |chunks| && (read < |chunks| ==> |chunks[read]| == 0)
      ensures forall i :: 0 <= i < read ==> |chunks[i]| > 0
      ensures Holds(Joined(chunks, read))
    {
      read := 0;
      while read < |chunks| && |chunks[read]| > 0
        invariant read <= |chunks| && Holds(Joined(chunks, read))
        invariant forall i :: 0 <= i < read ==> |chunks[i]| > 0
      {
        Append(chunks[read], Joined(chunks, read));
        read := read + 1;
      }
    }
  }

  /** How many bytes of a chunk still fit into the head. */
  function Taken(inHead: nat, size: nat, limit: nat): (n: nat)
    ensures n <= size
  {
    if limit == 0 then size
    else if inHead >= HeadCap(limit) then 0
    else if size < HeadCap(limit) - inHead then size
    else HeadCap(limit) - inHead
  }

  /** Where the bytes of a chunk go. */
  lemma AppendedHead(stream: Bytes, data: Bytes, limit: nat)
    requires limit > 0
    ensures var n := Taken(|Head(stream, limit)|, |data|, limit);
            && Head(stream + data, limit) == Head(stream, limit) + data[..n]
            && Rest(stream + data, limit) == Rest(stream, limit) + data[n..]
  {
    var all, cap := stream + data, HeadCap(limit);
    if |stream| < cap {
      if |all| <= cap {
        assert data[..|data|] == data && data[|data|..] == [];
      } else {
        assert all[..cap] == stream + data[..cap - |stream|] && all[cap..] == data[cap - |stream|..];
      }
    } else {
      assert data[..0] == [] && data[0..] == data;
      assert |all| > cap ==> all[..cap] == stream[..cap] && all[cap..] == stream[cap..] + data;
      assert stream[..|stream|] == stream && stream[|stream|..] == [];
    }
  }

  lemma Appended(stream: Bytes, data: Bytes, limit: nat)
    ensures var n := Taken(|Head(stream, limit)|, |data|, limit);
            && Head(stream + data, limit) == Head(stream, limit) + data[..n]
            && Tail(stream + data, limit) ==
                 (if n == |data| then Tail(stream, limit) else Last(Tail(stream, limit) + data[n..], TailCap(limit)))
            && (Flag(stream + data, limit) <==> Flag(stream, limit) || n < |data|)
  {
    if limit > 0 {
      var n := Taken(|Head(stream, limit)|, |data|, limit);
      AppendedHead(stream, data, limit);
      LastOfLast(Rest(stream, limit), data[n..], TailCap(limit));
      assert n == |data| ==> Rest(stream, limit) + data[n..] == Rest(stream, limit);
    }
  }

  /** Trimming as the stream comes in is trimming once at the end. */
  lemma LastOfLast(s: Bytes, more: Bytes, n: nat)
    ensures Last(Last(s, n) + more, n) == Last(s + more, n)
  {
    var t := Last(s, n) + more;
    if |s| > n {
      assert t == (s + more)[|s| - n..];
    }
  }

  // ---------- what a reader of the capture may rely on ----------

  /** Head and tail never hold more than the limit, and are parts of the stream. */
  lemma Bounded(stream: Bytes, limit: nat)
    requires limit > 0
    ensures |Head(stream, limit)| + |Tail(stream, limit)| <= limit
    ensures Head(stream, limit) <= stream
    ensures Tail(stream, limit) == stream[|stream| - |Tail(stream, limit)|..]
    ensures |Head(stream, limit)| + |Tail(stream, limit)| == if |stream| < limit then |stream| else limit
    ensures |Head(stream, limit)| == if |stream| < limit / 2 then |stream| else limit / 2
  {
  }

  /** Without a positive limit everything is kept; a positive one is the limit. */
  lemma LimitIs(requested: int, stream: Bytes, mark: Bytes)
    ensures requested <= 0 ==> Shown(stream, Limit(requested), mark) == stream
    ensures requested > 0 ==> Limit(requested) == requested
  {
  }

  /** Nothing is lost exactly when the stream fits. */
  lemma LosslessIff(stream: Bytes, limit: nat)
    ensures Head(stream, limit) + Tail(stream, limit) == stream <==> limit == 0 || |stream| <= limit
  {
    if limit > 0 && HeadCap(limit) < |stream| <= limit {
      assert stream == stream[..HeadCap(limit)] + stream[HeadCap(limit)..];
    }
  }

  /** The elision mark is shown exactly when the head overflows; for streams between the
      head's size and the limit it is shown although no byte is missing. */
  lemma MarkIff(stream: Bytes, limit: nat, mark: Bytes)
    requires mark != []
    ensures Shown(stream, limit, mark) == stream <==> !Flag(stream, limit) || ShownByChance(stream, limit, mark)
    ensures limit > 0 && HeadCap(limit) < |stream| <= limit ==>
      Head(stream, limit) + Tail(stream, limit) == stream && |Shown(stream, limit, mark)| == |stream| + |mark|
  {
    LosslessIff(stream, limit);
    if !Flag(stream, limit) {
      assert stream + [] + [] == stream;
    } else if |stream| > limit {
      MarkInMiddle(stream, limit, mark);
    }
  }

  lemma MarkInMiddle(stream: Bytes, limit: nat, mark: Bytes)
    requires limit > 0 && |stream| > limit
    ensures Shown(stream, limit, mark) == stream <==> ShownByChance(stream, limit, mark)
  {
    var cap, shown, m := HeadCap(limit), Shown(stream, limit, mark), |mark|;
    var end := stream[|stream| - TailCap(limit)..];
    assert shown == stream[..cap] + mark + end;
    SliceOfThree(stream[..cap], mark, end);
    if ShownByChance(stream, limit, mark) {
      CutInThree(stream, cap, cap + m);
    }
  }

  lemma SliceOfThree(a: Bytes, b: Bytes, c: Bytes)
    ensures (a + b + c)[|a|..|a| + |b|] == b
  {
  }

  lemma CutInThree(s: Bytes, i: nat, j: nat)
    requires i <= j <= |s|
    ensures s == s[..i] + s[i..j] + s[j..]
  {
  }

  /** The dropped middle happens to read like the mark itself. */
  predicate ShownByChance(stream: Bytes, limit: nat, mark: Bytes) {
    Flag(stream, limit) && |stream| == limit + |mark| &&
    stream[HeadCap(limit)..HeadCap(limit) + |mark|] == mark
  }
}
