/**
 * The identifier module of the single-process node. Its text forms are those of
 * `Ids` (the same `n<k>`, `c<k>` and bare-number shapes, so the datatypes are shared),
 * but its parsers test `starts_with` and then parse `s[1..]`, and the peer parser has
 * its own error message. It also owns the process-wide message-id counter.
 */
module Id {
  import opened Common
  import opened Json
  import opened Ids
  import Decimal

  const PEER_PREFIX_ERROR := "PeerId must start with 'n' or 'c'"

  /**
   * `MESSAGE_COUNTER`, the process-wide atomic behind `MessageId::next`. It is a
   * `usize` (64 bits on the targets this runs on), so `fetch_add` wraps at 2^64.
   */
  class MessageCounter {
    var value: u64

    constructor ()
      ensures value == 0
    {
      value := 0;
    }

    /** `MessageId::next`: hands out the current value and increments the counter. */
    method Next() returns (id: MessageId)
      modifies this
      ensures id.n == old(value)
      ensures value == (old(value) + 1) % U64_LIMIT
    {
      id := MessageId(value);
      value := (value + 1) % U64_LIMIT;
    }

    /**
     * `k` successive calls of `MessageId::next`: the `i`-th hands out the value the
     * counter held `i` calls before, wrapping at 2^64. Fewer than 2^64 calls never repeat
     * an id, and until the counter wraps each id is larger than the one before.
     */
    method Draw(k: nat) returns (ids: seq<MessageId>)
      modifies this
      ensures |ids| == k
      ensures forall i | 0 <= i < k :: ids[i].n == Wrapped(old(value), i)
      ensures value == Wrapped(old(value), k)
      ensures k <= U64_LIMIT ==> Distinct(ids)
      ensures old(value) + k <= U64_LIMIT ==> forall i, j | 0 <= i < j < k :: ids[i].n < ids[j].n
    {
      ghost var start := value;
      ghost var ns: seq<u64> := [];
      ids := [];
      while |ids| < k
        invariant |ns| == |ids| <= k
        invariant forall i | 0 <= i < |ids| :: ids[i].n == ns[i]
        invariant DrawnFrom(start, ns)
        invariant value == Wrapped(start, |ids|)
      {
        WrappedStep(start, |ids|);
        DrawnFromSnoc(start, ns);
        var id := Next();
        ids, ns := ids + [id], ns + [id.n];
      }
      if k <= U64_LIMIT {
        DrawnDistinct(start, ns);
      }
      if start + k <= U64_LIMIT {
        DrawnIncreasing(start, ns);
      }
    }
  }

  /** The string part of `Deserialize for NodeId` in this module. */
  function ParseNodeId(s: string): (r: Result<NodeId, IdError>)
    ensures (|s| == 0 || s[0] != 'n') ==> r == Err(Custom(NODE_PREFIX_ERROR))
  {
    if !(|s| > 0 && s[0] == 'n') then Err(Custom(NODE_PREFIX_ERROR))
    else
      var n :- ParseNumber(s[1..]);
      Ok(NodeId(n))
  }

  /** The string part of `Deserialize for ClientId` in this module. */
  function ParseClientId(s: string): (r: Result<ClientId, IdError>)
    ensures (|s| == 0 || s[0] != 'c') ==> r == Err(Custom(CLIENT_PREFIX_ERROR))
  {
    if !(|s| > 0 && s[0] == 'c') then Err(Custom(CLIENT_PREFIX_ERROR))
    else
      var n :- ParseNumber(s[1..]);
      Ok(ClientId(n))
  }

  /** The string part of `Deserialize for PeerId` in this module. */
  function ParsePeerId(s: string): (r: Result<PeerId, IdError>)
    ensures (|s| == 0 || (s[0] != 'n' && s[0] != 'c')) ==> r == Err(Custom(PEER_PREFIX_ERROR))
  {
    if |s| > 0 && s[0] == 'n' then
      var n :- ParseNumber(s[1..]);
      Ok(Node(NodeId(n)))
    else if |s| > 0 && s[0] == 'c' then
      var n :- ParseNumber(s[1..]);
      Ok(Client(ClientId(n)))
    else
      Err(Custom(PEER_PREFIX_ERROR))
  }

  /**
   * The two id modules decode every string identically, except that a peer id with
   * neither prefix is refused with this module's own message.
   */
  lemma {:induction false} ParsersAgree(s: string)
    ensures ParseNodeId(s) == Ids.ParseNodeId(s)
    ensures ParseClientId(s) == Ids.ParseClientId(s)
    ensures ParsePeerId(s) == if |s| > 0 && (s[0] == 'n' || s[0] == 'c') then Ids.ParsePeerId(s)
                              else Err(Custom(PEER_PREFIX_ERROR))
  {
    if |s| > 0 && (s[0] == 'n' || s[0] == 'c') {
      assert StripPrefix(s, s[0]) == Some(s[1..]);
    }
  }

  /** Round trip: parsing the display of any peer id gives it back. */
  lemma {:induction false} PeerIdRoundTrip(p: PeerId)
    ensures ParsePeerId(DisplayPeerId(p)) == Ok(p)
  {
    Ids.PeerIdRoundTrip(p);
    ParsersAgree(DisplayPeerId(p));
  }

  /** Round trip for node ids. */
  lemma {:induction false} NodeIdRoundTrip(id: NodeId)
    ensures ParseNodeId(DisplayNodeId(id)) == Ok(id)
  {
    Ids.NodeIdRoundTrip(id);
    ParsersAgree(DisplayNodeId(id));
  }

  /** Round trip for client ids. */
  lemma {:induction false} ClientIdRoundTrip(id: ClientId)
    ensures ParseClientId(DisplayClientId(id)) == Ok(id)
  {
    Ids.ClientIdRoundTrip(id);
    ParsersAgree(DisplayClientId(id));
  }
}
