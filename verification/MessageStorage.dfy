/** The message list with its token anchor: `MessageStore` (core/message_store.py). */
module MessageStorage {
  import opened Messages

  /** The anchored count: an exact prefix count plus an estimate of what came later. */
  function Live(ms: seq<Message>, anchorTotal: nat, anchorCount: nat): nat {
    if anchorTotal == 0 || anchorCount == 0 then EstimateAll(ms)
    else if anchorCount >= |ms| then anchorTotal
    else anchorTotal + EstimateAll(ms[anchorCount..])
  }

  class MessageStore {
    var messages: seq<Message>
    var anchorTotal: nat
    var anchorCount: nat

    constructor ()
      ensures messages == [] && anchorTotal == 0 && anchorCount == 0
    {
      messages, anchorTotal, anchorCount := [], 0, 0;
    }

    function LiveTokens(): nat
      reads this
    {
      Live(messages, anchorTotal, anchorCount)
    }

    /** Only the input count is kept; an empty usage report changes nothing. */
    method SetAnchor(inputTokens: nat, outputTokens: nat)
      modifies this`anchorTotal, this`anchorCount
      ensures inputTokens == 0 && outputTokens == 0 ==>
        anchorTotal == old(anchorTotal) && anchorCount == old(anchorCount)
      ensures inputTokens > 0 ==> anchorTotal == inputTokens && anchorCount == |messages|
      ensures inputTokens == 0 && outputTokens > 0 ==> LiveTokens() == EstimateAll(messages)
      ensures inputTokens > 0 && messages != [] ==> LiveTokens() == inputTokens
    {
      if inputTokens == 0 && outputTokens == 0 {
        return;
      }
      anchorTotal := inputTokens;
      anchorCount := |messages|;
    }

    method ResetAnchor()
      modifies this`anchorTotal, this`anchorCount
      ensures anchorTotal == 0 && anchorCount == 0
      ensures LiveTokens() == EstimateAll(messages)
    {
      anchorTotal, anchorCount := 0, 0;
    }

    method Append(m: Message)
      modifies this`messages
      ensures messages == old(messages) + [m]
    {
      messages := messages + [m];
    }

    method Clear()
      modifies this
      ensures messages == [] && LiveTokens() == 0
    {
      messages := [];
      ResetAnchor();
    }
  }

  /** The anchor counts exactly what was there when it was set, and what has been appended
      since at its estimate. */
  lemma LiveAfterAppends(anchored: seq<Message>, added: seq<Message>, total: nat)
    requires total > 0 && anchored != []
    ensures Live(anchored + added, total, |anchored|) == total + EstimateAll(added)
    ensures Live(anchored, total, |anchored|) == total
  {
    assert (anchored + added)[|anchored|..] == added;
  }

  /** Behind an anchor that has been cut into, the anchored total stands. */
  lemma LiveWithoutAnchor(ms: seq<Message>, total: nat, count: nat)
    ensures total == 0 || count == 0 ==> Live(ms, total, count) == EstimateAll(ms)
    ensures total > 0 && count >= |ms| && count > 0 ==> Live(ms, total, count) == total
  {
  }
}
