/**
 * The broadcast workload's handler: it remembers every value it has seen, learns from a
 * `topology` request which peers to gossip to (the targets `Topology::next` picks), and
 * forwards each new value to those peers, except the one it came from, retrying every
 * send with a growing timeout until the peer acknowledges it.
 */
module Broadcast {
  import opened Common
  import opened Json
  import opened Ids
  import opened Protocol
  import Topology

  type Graph = Topology.Graph

  // =====================================================================
  // Decoding the requests
  // =====================================================================

  /** A JSON array of node ids, decoded element by element; one bad element fails it all. */
  function DecodeNodeList(items: seq<Json>): (r: Option<seq<NodeId>>)
    ensures r.Some? <==> forall i | 0 <= i < |items| :: DeserializeNodeId(items[i]).Ok?
    ensures r.Some? ==> |r.value| == |items|
    ensures r.Some? ==> forall i | 0 <= i < |items| :: r.value[i] == DeserializeNodeId(items[i]).value
  {
    if items == [] then Some([])
    else
      match DecodeNodeList(items[1..])
      case None => None
      case Some(rest) =>
        match DeserializeNodeId(items[0])
        case Ok(id) => Some([id] + rest)
        case Err(_) => None
  }

  /** Every key of the `topology` object names a node and every value is a list of nodes. */
  predicate EntriesDecode(o: Object) {
    forall s | s in o :: ParseNodeId(s).Ok? && o[s].Arr? && DecodeNodeList(o[s].items).Some?
  }

  /** No two keys name the same node (as `n1` and `n01` would). */
  predicate KeysNameDistinctNodes(o: Object)
    requires EntriesDecode(o)
  {
    forall s, s' | s in o && s' in o && s != s' :: ParseNodeId(s).value != ParseNodeId(s').value
  }

  /** `HashMap<NodeId, Vec<NodeId>>` read from a JSON object. */
  function DecodeGraph(o: Object): (r: Option<Graph>)
    ensures r.Some? <==> EntriesDecode(o) && KeysNameDistinctNodes(o)
    ensures r.Some? ==> forall s | s in o ::
              ParseNodeId(s).value in r.value && r.value[ParseNodeId(s).value] == DecodeNodeList(o[s].items).value
    ensures r.Some? ==> forall k | k in r.value :: exists s | s in o :: ParseNodeId(s) == Ok(k)
  {
    if EntriesDecode(o) && KeysNameDistinctNodes(o) then Some(GraphOf(o)) else None
  }

  /** The map of a well-formed `topology` object: each key's node to its decoded list. */
  function GraphOf(o: Object): (g: Graph)
    requires EntriesDecode(o) && KeysNameDistinctNodes(o)
    ensures forall s | s in o :: ParseNodeId(s).value in g && g[ParseNodeId(s).value] == DecodeNodeList(o[s].items).value
    ensures forall k | k in g :: exists s | s in o :: ParseNodeId(s) == Ok(k)
  {
    map s | s in o :: ParseNodeId(s).value := DecodeNodeList(o[s].items).value
  }

  /**
   * `Request<TopologyRequest>`: a `u64` `msg_id` and a `topology` object. Like every
   * request struct here, `TopologyRequest` names its `type` only for serialising; reading
   * it ignores `type` with every other field it does not declare.
   */
  function DecodeTopology(body: Object): (r: Option<Request<Graph>>)
    ensures r.Some? <==> && RequestMsgId(body).Some?
                         && "topology" in body && body["topology"].Obj?
                         && DecodeGraph(body["topology"].fields).Some?
    ensures r.Some? ==> r.value == Request(RequestMsgId(body).value, DecodeGraph(body["topology"].fields).value)
  {
    if RequestMsgId(body).Some? && "topology" in body && body["topology"].Obj? then
      match DecodeGraph(body["topology"].fields)
      case Some(g) => Some(Request(RequestMsgId(body).value, g))
      case None => None
    else None
  }

  /** `Request<BroadcastRequest>`: a `u64` `msg_id` and a `u64` `message`. */
  function DecodeBroadcast(body: Object): (r: Option<Request<u64>>)
    ensures r.Some? <==> RequestMsgId(body).Some? && FieldU64(body, "message").Some?
    ensures r.Some? ==> r.value == Request(RequestMsgId(body).value, FieldU64(body, "message").value)
  {
    if RequestMsgId(body).Some? && FieldU64(body, "message").Some? then
      Some(Request(RequestMsgId(body).value, FieldU64(body, "message").value))
    else None
  }

  /** `Request<ReadRequest>`: a `u64` `msg_id`; `ReadRequest` has no field of its own. */
  function DecodeRead(body: Object): (r: Option<Request<()>>)
    ensures r.Some? <==> RequestMsgId(body).Some?
    ensures r.Some? ==> r.value.msgId == RequestMsgId(body).value
  {
    if RequestMsgId(body).Some? then Some(Request(RequestMsgId(body).value, ())) else None
  }

  /**
   * The handler tries topology, then broadcast, then read. Every body that decodes as
   * either of the first two also decodes as a read, so only a body without a `u64`
   * `msg_id` reaches the branch that ignores it.
   */
  lemma ReadCatchesAllRequests(body: Object)
    ensures DecodeTopology(body).Some? ==> DecodeRead(body).Some?
    ensures DecodeBroadcast(body).Some? ==> DecodeRead(body).Some?
    ensures DecodeRead(body).None? <==> FieldU64(body, "msg_id").None?
  {
    if DecodeTopology(body).Some? {
      assert RequestMsgId(body).Some?;
    }
  }

  /** The body a forwarded value is sent with: `BroadcastRequest { message }`. */
  function ForwardPayload(value: u64): Json {
    Obj(map["type" := Str("broadcast"), "message" := Int(value)])
  }

  /** A forwarded value arrives as a broadcast request for the same value. */
  lemma ForwardDecodes(self: NodeId, target: NodeId, msgId: u64, value: u64)
    ensures RequestTo(self, Node(target), msgId, ForwardPayload(value)).Ok?
    ensures var m := RequestTo(self, Node(target), msgId, ForwardPayload(value)).value;
            && m.src == Node(self) && m.dest == Node(target)
            && DecodeTopology(m.body).None?
            && DecodeBroadcast(m.body) == Some(Request(msgId, value))
  {
    var m := RequestTo(self, Node(target), msgId, ForwardPayload(value)).value;
    assert m.body == map["msg_id" := Int(msgId), "type" := Str("broadcast"), "message" := Int(value)];
    assert "topology" !in m.body;
  }

  // =====================================================================
  // Forward targets
  // =====================================================================

  /** How often `x` occurs in `s`. */
  function Count(s: seq<NodeId>, x: NodeId): nat {
    if s == [] then 0 else (if s[0] == x then 1 else 0) + Count(s[1..], x)
  }

  /** `filter(|node_id| !src_id.eq(node_id))`: the list without `x`, order kept. */
  function Skip(s: seq<NodeId>, x: NodeId): (r: seq<NodeId>)
    ensures forall y :: y in r <==> y in s && y != x
    ensures |r| == |s| - Count(s, x)
  {
    if s == [] then []
    else (if s[0] == x then [] else [s[0]]) + Skip(s[1..], x)
  }

  /** Who a new value is forwarded to: every gossip target but the sender, when the sender is a node. */
  function Targets(broadcastTo: seq<NodeId>, source: PeerId): (r: seq<NodeId>)
    ensures forall y :: y in r <==> y in broadcastTo && source != Node(y)
    ensures source.Client? ==> r == broadcastTo
  {
    match source
    case Node(src) => Skip(broadcastTo, src)
    case Client(_) => broadcastTo
  }

  /** The positions of `s` that `Skip(s, x)` keeps, in increasing order. */
  function Kept(s: seq<NodeId>, x: NodeId): seq<nat>
  {
    if s == [] then []
    else if s[0] == x then Shift(Kept(s[1..], x))
    else [0] + Shift(Kept(s[1..], x))
  }

  /** Skipping keeps the order: the result, read left to right, is a sub-list of the input. */
  lemma {:induction false} SkipIsSubsequence(s: seq<NodeId>, x: NodeId)
    ensures IsEmbedding(Kept(s, x), Skip(s, x), s)
    decreases |s|
  {
    if s != [] {
      SkipIsSubsequence(s[1..], x);
      EmbeddingExtends(Kept(s[1..], x), Skip(s[1..], x), s);
      if s[0] != x {
        assert Skip(s, x) == [s[0]] + Skip(s[1..], x);
      }
    }
  }

  /** An embedding into the tail of `s` is one into `s`, and stays one when `s`'s head is put in front. */
  lemma EmbeddingExtends(idx: seq<nat>, sub: seq<NodeId>, s: seq<NodeId>)
    requires |s| > 0 && IsEmbedding(idx, sub, s[1..])
    ensures IsEmbedding(Shift(idx), sub, s)
    ensures IsEmbedding([0] + Shift(idx), [s[0]] + sub, s)
  {
    ShiftEmbeds(idx, sub, s);
    ConsEmbeds(Shift(idx), sub, s);
  }

  /** An embedding that avoids position 0 stays one when `s`'s head is put in front. */
  lemma ConsEmbeds(idx: seq<nat>, sub: seq<NodeId>, s: seq<NodeId>)
    requires |s| > 0 && IsEmbedding(idx, sub, s)
    requires forall i | 0 <= i < |idx| :: idx[i] > 0
    ensures IsEmbedding([0] + idx, [s[0]] + sub, s)
  {
    var idx' := [0] + idx;
    var sub' := [s[0]] + sub;
    forall i | 0 <= i < |idx'| ensures idx'[i] < |s| && s[idx'[i]] == sub'[i] {
      if i > 0 {
        assert idx'[i] == idx[i - 1] && sub'[i] == sub[i - 1];
      }
    }
    forall i, j | 0 <= i < j < |idx'| ensures idx'[i] < idx'[j] {
      assert idx'[j] == idx[j - 1];
      if i > 0 {
        assert idx'[i] == idx[i - 1];
      }
    }
  }

  /** Moving every position one to the right embeds into `s` what embedded into its tail. */
  lemma ShiftEmbeds(idx: seq<nat>, sub: seq<NodeId>, s: seq<NodeId>)
    requires |s| > 0 && IsEmbedding(idx, sub, s[1..])
    ensures IsEmbedding(Shift(idx), sub, s)
  {
    assert forall i | 0 <= i < |idx| :: s[Shift(idx)[i]] == s[1..][idx[i]];
  }

  /** Every position moved one to the right. */
  function Shift(idx: seq<nat>): (r: seq<nat>)
    ensures |r| == |idx| && forall i | 0 <= i < |idx| :: r[i] == idx[i] + 1
  {
    if idx == [] then [] else [idx[0] + 1] + Shift(idx[1..])
  }

  /** `idx` picks the elements of `sub` out of `s` at strictly increasing positions. */
  predicate IsEmbedding(idx: seq<nat>, sub: seq<NodeId>, s: seq<NodeId>) {
    && |idx| == |sub|
    && (forall i | 0 <= i < |idx| :: idx[i] < |s| && s[idx[i]] == sub[i])
    && (forall i, j | 0 <= i < j < |idx| :: idx[i] < idx[j])
  }

  /** A gossip list without repeats gives a target list without repeats. */
  lemma {:induction false} SkipDistinct(s: seq<NodeId>, x: NodeId)
    requires Distinct(s)
    ensures Distinct(Skip(s, x))
    decreases |s|
  {
    if s != [] {
      assert Distinct(s[1..]);
      SkipDistinct(s[1..], x);
      var rest := Skip(s[1..], x);
      if s[0] != x {
        assert s[0] !in s[1..];
        assert Skip(s, x) == [s[0]] + rest;
      } else {
        assert Skip(s, x) == rest;
      }
    }
  }

  // =====================================================================
  // Retry back-off
  // =====================================================================

  const INITIAL_TIMEOUT_MS: u64 := 100

  /**
   * `(timeout_ms as f64 * 1.5) as u64`, on integers: the timeout plus half of it,
   * saturating at the largest `u64` as the float-to-integer cast does.
   */
  function Grow(t: u64): (r: u64)
    ensures r >= t
    ensures t + t / 2 <= U64_MAX ==> r == t + t / 2
    ensures t + t / 2 > U64_MAX ==> r == U64_MAX
    ensures 2 <= t < U64_MAX ==> r > t
  {
    if t + t / 2 > U64_MAX then U64_MAX else t + t / 2
  }

  /** The timeout of the `k`-th attempt of one forward (counting from 0). */
  function Backoff(k: nat): u64 {
    if k == 0 then INITIAL_TIMEOUT_MS else Grow(Backoff(k - 1))
  }

  /** The first attempts wait 100, 150, 225 and 337 ms. */
  lemma BackoffStart()
    ensures Backoff(0) == 100 && Backoff(1) == 150 && Backoff(2) == 225 && Backoff(3) == 337
  {
  }

  /** Timeouts never drop below 100 ms and grow strictly until they saturate. */
  lemma {:induction false} BackoffGrows(k: nat)
    ensures Backoff(k) >= INITIAL_TIMEOUT_MS
    ensures Backoff(k + 1) >= Backoff(k)
    ensures Backoff(k) < U64_MAX ==> Backoff(k + 1) > Backoff(k)
  {
    if k > 0 {
      BackoffGrows(k - 1);
    }
  }

  /** How one attempt of a forward ends. */
  datatype Attempt = TimedOut | ErrorReply | Acknowledged

  /**
   * The retry loop of one forward, run against the outcomes of its attempts: each
   * attempt waits for the current timeout, a time-out or an error reply grows it, and
   * the first acknowledgement ends the loop. Without one the forward is still retrying.
   */
  method Retry(attempts: seq<Attempt>) returns (timeouts: seq<u64>, acknowledged: bool)
    ensures acknowledged <==> Acknowledged in attempts
    ensures |timeouts| <= |attempts|
    ensures acknowledged ==> |timeouts| >= 1 && attempts[|timeouts| - 1] == Acknowledged
    ensures !acknowledged ==> |timeouts| == |attempts|
    ensures forall i | 0 <= i < |timeouts| - 1 :: attempts[i] != Acknowledged
    ensures forall i {:trigger timeouts[i]} | 0 <= i < |timeouts| :: timeouts[i] == Backoff(i)
  {
    var timeoutMs := INITIAL_TIMEOUT_MS;
    timeouts := [];
    acknowledged := false;
    var i := 0;
    while i < |attempts|
      invariant 0 <= i <= |attempts| && |timeouts| == i
      invariant timeoutMs == Backoff(i)
      invariant forall j | 0 <= j < i :: attempts[j] != Acknowledged
      invariant forall j {:trigger timeouts[j]} | 0 <= j < i :: timeouts[j] == Backoff(j)
    {
      timeouts := timeouts + [timeoutMs];
      if attempts[i] == Acknowledged {
        acknowledged := true;
        return;
      }
      timeoutMs := Grow(timeoutMs);
      i := i + 1;
    }
  }

  // =====================================================================
  // The handler
  // =====================================================================

  /** What one request makes the handler send: a reply, and the peers a value is forwarded to. */
  datatype Outcome = Outcome(reply: Option<Message>, forwardTo: seq<NodeId>)

  /** The handler takes the broadcast branch for `m`: it is not a topology request but a broadcast one. */
  predicate IsBroadcast(m: Message) {
    DecodeTopology(m.body).None? && DecodeBroadcast(m.body).Some?
  }

  /** The value a message broadcasts, if the handler takes it as a broadcast request. */
  function BroadcastValue(m: Message): set<u64> {
    if IsBroadcast(m) then {DecodeBroadcast(m.body).value.payload} else {}
  }

  /** The values a run of messages broadcasts, in any order. */
  function BroadcastValues(run: seq<Message>): set<u64> {
    if run == [] then {} else BroadcastValues(run[..|run| - 1]) + BroadcastValue(run[|run| - 1])
  }

  /** A value is broadcast by a run exactly when one of its messages is a broadcast request for it. */
  lemma {:induction false} BroadcastValuesMembers(run: seq<Message>, v: u64)
    ensures v in BroadcastValues(run) <==> exists i | 0 <= i < |run| ::
              IsBroadcast(run[i]) && DecodeBroadcast(run[i].body).value.payload == v
    decreases |run|
  {
    if run != [] {
      var init := run[..|run| - 1];
      BroadcastValuesMembers(init, v);
      assert forall i | 0 <= i < |init| :: init[i] == run[i];
      if v in BroadcastValue(run[|run| - 1]) {
        assert IsBroadcast(run[|run| - 1]) && DecodeBroadcast(run[|run| - 1].body).value.payload == v;
      }
    }
  }

  /**
   * The gossip targets after a run of messages: `next` of the sorted topology of the
   * run's last topology request, or `targets` when the run carries none.
   */
  ghost function TargetsAfter(targets: seq<NodeId>, self: NodeId, run: seq<Message>): seq<NodeId> {
    if run == [] then targets
    else
      match DecodeTopology(run[|run| - 1].body)
      case Some(request) => Topology.NextSpec(Topology.SortLists(request.payload), self)
      case None => TargetsAfter(targets, self, run[..|run| - 1])
  }

  /** The last topology request of a run decides the targets; what comes before it does not matter. */
  lemma {:induction false} TargetsAfterLastTopology(targets: seq<NodeId>, self: NodeId, run: seq<Message>, i: nat)
    requires i < |run| && DecodeTopology(run[i].body).Some?
    requires forall j | i < j < |run| :: DecodeTopology(run[j].body).None?
    ensures TargetsAfter(targets, self, run)
            == Topology.NextSpec(Topology.SortLists(DecodeTopology(run[i].body).value.payload), self)
    decreases |run|
  {
    if i < |run| - 1 {
      var init := run[..|run| - 1];
      assert forall j | 0 <= j < |init| :: init[j] == run[j];
      TargetsAfterLastTopology(targets, self, init, i);
    }
  }

  /** A run without a topology request leaves the targets as they were. */
  lemma {:induction false} TargetsAfterNoTopology(targets: seq<NodeId>, self: NodeId, run: seq<Message>)
    requires forall j | 0 <= j < |run| :: DecodeTopology(run[j].body).None?
    ensures TargetsAfter(targets, self, run) == targets
    decreases |run|
  {
    if run != [] {
      var init := run[..|run| - 1];
      assert forall j | 0 <= j < |init| :: init[j] == run[j];
      TargetsAfterNoTopology(targets, self, init);
    }
  }

  /** One more message of a run: its broadcast value joins the set, and a topology request resets the targets. */
  lemma RunStep(targets: seq<NodeId>, self: NodeId, run: seq<Message>, i: nat)
    requires i < |run|
    ensures BroadcastValues(run[..i + 1]) == BroadcastValues(run[..i]) + BroadcastValue(run[i])
    ensures TargetsAfter(targets, self, run[..i + 1])
            == if DecodeTopology(run[i].body).Some?
               then Topology.NextSpec(Topology.SortLists(DecodeTopology(run[i].body).value.payload), self)
               else TargetsAfter(targets, self, run[..i])
  {
    assert run[..i + 1][..i] == run[..i];
  }

  /** A JSON array listing the numbers of `values` once each, in an unspecified order. */
  predicate Lists(items: seq<Json>, values: set<u64>) {
    && Distinct(items)
    && (forall i | 0 <= i < |items| :: items[i].Int? && items[i].i in values)
    && (forall v | v in values :: Int(v) in items)
  }

  /** Serialising a `HashSet<u64>`: its elements in the set's iteration order. */
  method ListValues(values: set<u64>) returns (items: seq<Json>)
    ensures Lists(items, values)
  {
    items := [];
    var rest := values;
    while rest != {}
      invariant rest <= values
      invariant Distinct(items)
      invariant forall i | 0 <= i < |items| :: items[i].Int? && items[i].i in values - rest
      invariant forall v | v in values - rest :: Int(v) in items
      decreases rest
    {
      var v :| v in rest;
      items := items + [Int(v)];
      rest := rest - {v};
    }
  }

  /** `BroadcastHandler`: the values seen so far and the peers to gossip to. */
  class Handler {
    var messages: set<u64>
    var broadcastTo: seq<NodeId>

    /** `BroadcastHandler::default()`. */
    constructor ()
      ensures messages == {} && broadcastTo == []
    {
      messages := {};
      broadcastTo := [];
    }

    /**
     * `BroadcastHandler::handle` on node `self`. A topology request replaces the gossip
     * targets with `Topology::next` of the sorted topology; a broadcast of a known value
     * is only acknowledged; a new value is remembered, acknowledged and forwarded to the
     * targets but its sender; a read is answered with every value seen; a message without
     * a `u64` `msg_id` is ignored. A request without a string `type` cannot be answered:
     * the `expect` on the reply panics the task after the state has changed and before
     * anything is forwarded.
     */
    method Handle(self: NodeId, message: Message) returns (out: Outcome)
      modifies this
      ensures DecodeTopology(message.body).Some? ==>
                var g := DecodeTopology(message.body).value.payload;
                && messages == old(messages)
                && broadcastTo == Topology.NextSpec(Topology.SortLists(g), self)
                && out == Outcome(ReplyOrPanic(message, Obj(map[])), [])
      ensures IsBroadcast(message) ==>
                var value := DecodeBroadcast(message.body).value.payload;
                && messages == old(messages) + {value}
                && broadcastTo == old(broadcastTo)
                && out.reply == ReplyOrPanic(message, Obj(map[]))
                && out.forwardTo == (if value in old(messages) || out.reply.None? then []
                                     else Targets(old(broadcastTo), message.src))
      ensures DecodeRead(message.body).Some? && DecodeTopology(message.body).None? && !IsBroadcast(message) ==>
                && messages == old(messages) && broadcastTo == old(broadcastTo)
                && out.forwardTo == []
                && exists items | Lists(items, messages) ::
                     out.reply == ReplyOrPanic(message, Obj(map["messages" := Arr(items)]))
      ensures DecodeRead(message.body).None? ==>
                messages == old(messages) && broadcastTo == old(broadcastTo) && out == Outcome(None, [])
      ensures DecodeRead(message.body).Some? ==> (out.reply.Some? <==> FieldStr(message.body, "type").Some?)
    {
      ReadCatchesAllRequests(message.body);
      var topology := DecodeTopology(message.body);
      if topology.Some? {
        out := HandleTopology(self, message, topology.value.payload);
        return;
      }
      var broadcast := DecodeBroadcast(message.body);
      if broadcast.Some? {
        out := HandleBroadcast(message, broadcast.value.payload);
        return;
      }
      var read := DecodeRead(message.body);
      if read.Some? {
        out := HandleRead(message);
        return;
      }
      return Outcome(None, []);
    }

    /** The topology branch: the gossip targets become `next` of the sorted topology. */
    method HandleTopology(self: NodeId, message: Message, g: Graph) returns (out: Outcome)
      modifies this
      ensures messages == old(messages)
      ensures broadcastTo == Topology.NextSpec(Topology.SortLists(g), self)
      ensures out == Outcome(ReplyOrPanic(message, Obj(map[])), [])
    {
      var t := Topology.From(g);
      assert t == map k | k in g :: Topology.Sort(g[k]);
      broadcastTo := Topology.Next(t, self);
      return Outcome(ReplyOrPanic(message, Obj(map[])), []);
    }

    /**
     * The broadcast branch: a known value is only acknowledged; a new one is remembered,
     * acknowledged and, once the acknowledgement is out, forwarded.
     */
    method HandleBroadcast(message: Message, value: u64) returns (out: Outcome)
      modifies this
      ensures messages == old(messages) + {value}
      ensures broadcastTo == old(broadcastTo)
      ensures out.reply == ReplyOrPanic(message, Obj(map[]))
      ensures out.forwardTo == (if value in old(messages) || out.reply.None? then []
                                else Targets(old(broadcastTo), message.src))
    {
      if value in messages {
        return Outcome(ReplyOrPanic(message, Obj(map[])), []);
      }
      messages := messages + {value};
      var reply := ReplyOrPanic(message, Obj(map[]));
      if reply.None? {
        return Outcome(None, []);
      }
      return Outcome(reply, Targets(broadcastTo, Source(message)));
    }

    /** The read branch: every value seen, as a JSON array. */
    method HandleRead(message: Message) returns (out: Outcome)
      ensures out.forwardTo == []
      ensures exists items | Lists(items, messages) ::
                out.reply == ReplyOrPanic(message, Obj(map["messages" := Arr(items)]))
    {
      var items := ListValues(messages);
      return Outcome(ReplyOrPanic(message, Obj(map["messages" := Arr(items)])), []);
    }

    /**
     * Handling a run of messages one at a time: the seen values gain exactly the broadcast
     * ones, and the gossip targets are those of the last topology request in the run.
     */
    method HandleAll(self: NodeId, run: seq<Message>) returns (outs: seq<Outcome>)
      modifies this
      ensures messages == old(messages) + BroadcastValues(run)
      ensures broadcastTo == TargetsAfter(old(broadcastTo), self, run)
      ensures |outs| == |run|
    {
      outs := [];
      var i := 0;
      while i < |run|
        invariant 0 <= i <= |run| && |outs| == i
        invariant messages == old(messages) + BroadcastValues(run[..i])
        invariant broadcastTo == TargetsAfter(old(broadcastTo), self, run[..i])
      {
        RunStep(old(broadcastTo), self, run, i);
        var out := Handle(self, run[i]);
        outs := outs + [out];
        i := i + 1;
      }
      assert run[..|run|] == run;
    }
  }
}
