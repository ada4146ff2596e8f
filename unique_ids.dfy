/**
 * The unique-id workload's handler: every `generate` request is answered with the id
 * `node_id << 32 | counter`, where `counter` is a per-handler count of answered
 * requests. Node ids and counters below 2^32 give every node its own 2^32 ids.
 */
module UniqueIds {
  import opened Common
  import opened Json
  import opened Ids
  import opened Protocol
  import Bits

  const TWO_32: int := 0x1_0000_0000

  /**
   * `u64::from(node_id) << 32 | counter` in 64-bit arithmetic: the shift drops the
   * node id's upper 32 bits and the `|` merges any counter bits above 31 into it.
   */
  function IdOf(node: u64, counter: u64): (id: u64)
  {
    Bits.Pow2Widths();
    Bits.OrBound(Bits.Shl(node, 32, 64), counter, 64);
    Bits.Or(Bits.Shl(node, 32, 64), counter)
  }

  /** Below 2^32, the shift and the `|` are the arithmetic `node * 2^32 + counter`. */
  lemma IdIsSum(node: u64, counter: u64)
    requires node < TWO_32 && counter < TWO_32
    ensures IdOf(node, counter) == node * TWO_32 + counter
  {
    Bits.Pow2Widths();
    assert node * TWO_32 < U64_LIMIT;
    assert Bits.Shl(node, 32, 64) == node * Bits.Pow2(32);
    Bits.OrDisjoint(node, counter, 32);
  }

  /** The id is its node id and counter side by side: both can be read back from it. */
  lemma IdSplits(node: u64, counter: u64)
    requires node < TWO_32 && counter < TWO_32
    ensures IdOf(node, counter) / TWO_32 == node
    ensures IdOf(node, counter) % TWO_32 == counter
  {
    IdIsSum(node, counter);
  }

  /** Distinct (node, counter) pairs below 2^32 give distinct ids, as the source's comment claims. */
  lemma IdsDistinct(n1: u64, c1: u64, n2: u64, c2: u64)
    requires n1 < TWO_32 && c1 < TWO_32 && n2 < TWO_32 && c2 < TWO_32
    ensures IdOf(n1, c1) == IdOf(n2, c2) <==> n1 == n2 && c1 == c2
  {
    IdSplits(n1, c1);
    IdSplits(n2, c2);
  }

  /** Past 2^32 answered requests, node 0's ids run into node 1's. */
  lemma CounterOverflowCollides()
    ensures IdOf(0, TWO_32) == IdOf(1, 0) == TWO_32
  {
    Bits.Pow2Widths();
    assert Bits.Shl(0, 32, 64) == 0;
    assert Bits.Or(0, TWO_32) == TWO_32;
    IdIsSum(1, 0);
  }

  /** A node id of 2^32 or more loses its upper bits: node 2^32 hands out node 0's ids. */
  lemma WideNodeCollides()
    ensures IdOf(TWO_32, 0) == IdOf(0, 0) == 0
  {
    Bits.Pow2Widths();
    assert Bits.Shl(TWO_32, 32, 64) == 0;
  }

  /**
   * `Request<GenerateRequest>`. The `tag`/`rename` pair on the empty `GenerateRequest`
   * only adds a field when serialising; reading it ignores every field it does not
   * name, so any body with a `u64` `msg_id` decodes.
   */
  function DecodeGenerate(body: Object): (r: Option<Request<()>>)
    ensures r.Some? <==> RequestMsgId(body).Some?
    ensures r.Some? ==> r.value.msgId == RequestMsgId(body).value
  {
    match RequestMsgId(body)
    case Some(id) => Some(Request(id, ()))
    case None => None
  }

  /** Neither `type` nor any other field but `msg_id` decides whether a request decodes. */
  lemma OnlyMsgIdDecides(body: Object, key: string, value: Json)
    requires key != "msg_id"
    ensures DecodeGenerate(body[key := value]) == DecodeGenerate(body)
  {
    assert RequestMsgId(body[key := value]) == RequestMsgId(body);
  }

  /** `json!({"id": id})`. */
  function IdReply(id: u64): Json {
    Obj(map["id" := Int(id)])
  }

  /** `fetch_add(1)` on an `AtomicU64`: one more, wrapping from the largest `u64` to 0. */
  function WrappingInc(c: u64): (r: u64)
    ensures r == (c + 1) % U64_LIMIT
  {
    if c == U64_MAX then 0 else c + 1
  }

  /** How many messages of `run` decode as a request, each taking one counter value. */
  function Accepted(run: seq<Message>): (k: nat)
    ensures k <= |run|
    decreases |run|
  {
    if run == [] then 0 else (if DecodeGenerate(run[0].body).Some? then 1 else 0) + Accepted(run[1..])
  }

  /** `UniqueIdsHandler`: the atomic counter of ids handed out. */
  class Handler {
    var counter: u64

    /** `UniqueIdsHandler::default()`. */
    constructor ()
      ensures counter == 0
    {
      counter := 0;
    }

    /**
     * `UniqueIdsHandler::handle` on node `self`. A message that does not decode is
     * dropped and the counter stays. Otherwise the counter's value is taken (and the
     * counter incremented, wrapping at 2^64) before the reply is built, so even a
     * request whose `type` is missing, and whose reply therefore panics, uses up a value.
     */
    method Handle(self: NodeId, message: Message) returns (reply: Option<Message>)
      modifies this
      ensures DecodeGenerate(message.body).None? ==> counter == old(counter) && reply.None?
      ensures DecodeGenerate(message.body).Some? ==>
                && counter == WrappingInc(old(counter))
                && reply == ReplyOrPanic(message, IdReply(IdOf(self.n, old(counter))))
      ensures reply.Some? ==> "id" in reply.value.body && reply.value.body["id"] == Int(IdOf(self.n, old(counter)))
    {
      if DecodeGenerate(message.body).None? {
        return None;
      }
      var taken := counter;
      counter := WrappingInc(counter);
      var id := IdOf(self.n, taken);
      reply := ReplyOrPanic(message, IdReply(id));
    }

    /**
     * A run of messages handled one after another. As long as the node id and every
     * counter value taken stay below 2^32, no two replies carry the same id.
     */
    method HandleAll(self: NodeId, run: seq<Message>) returns (replies: seq<Option<Message>>)
      modifies this
      ensures |replies| == |run|
      ensures counter == CounterAfter(old(counter), run)
      ensures forall i | 0 <= i < |run| && replies[i].Some? :: "id" in replies[i].value.body
      ensures self.n < TWO_32 && old(counter) + |run| <= TWO_32 ==>
                forall i, j | 0 <= i < j < |run| && replies[i].Some? && replies[j].Some? ::
                  replies[i].value.body["id"] != replies[j].value.body["id"]
    {
      replies := [];
      ghost var taken: seq<u64> := [];
      ghost var bounded := self.n < TWO_32 && old(counter) + |run| <= TWO_32;
      ghost var accepted := 0;
      var i := 0;
      while i < |run|
        invariant 0 <= i <= |run| && |replies| == i && |taken| == i && accepted <= i
        invariant CounterAfter(old(counter), run) == CounterAfter(counter, run[i..])
        invariant bounded ==> counter == old(counter) + accepted
        invariant Carries(self, replies, taken)
        invariant bounded ==> TakenIncreasing(replies, taken, counter)
      {
        assert run[i..][1..] == run[i + 1..];
        var before := counter;
        var reply := Handle(self, run[i]);
        CarriesExtends(self, replies, taken, reply, before);
        if bounded {
          TakenExtends(replies, taken, before, reply, counter);
        }
        if DecodeGenerate(run[i].body).Some? {
          accepted := accepted + 1;
        }
        replies := replies + [reply];
        taken := taken + [before];
        i := i + 1;
      }
      if bounded {
        DistinctReplies(self, replies, taken, counter);
      }
    }
  }

  /** Every reply made carries the id formed from the node and the counter value it took. */
  ghost predicate Carries(self: NodeId, replies: seq<Option<Message>>, taken: seq<u64>)
    requires |taken| == |replies|
  {
    forall k | 0 <= k < |replies| && replies[k].Some? ::
      "id" in replies[k].value.body && replies[k].value.body["id"] == Int(IdOf(self.n, taken[k]))
  }

  /** The counter values taken by the replies made are increasing and below `counter`. */
  ghost predicate TakenIncreasing(replies: seq<Option<Message>>, taken: seq<u64>, counter: u64)
    requires |taken| == |replies|
  {
    && (forall k | 0 <= k < |replies| && replies[k].Some? :: taken[k] < counter)
    && (forall k, l | 0 <= k < l < |replies| && replies[k].Some? && replies[l].Some? :: taken[k] < taken[l])
  }

  lemma CarriesExtends(self: NodeId, replies: seq<Option<Message>>, taken: seq<u64>,
                       reply: Option<Message>, value: u64)
    requires |taken| == |replies| && Carries(self, replies, taken)
    requires reply.Some? ==> "id" in reply.value.body && reply.value.body["id"] == Int(IdOf(self.n, value))
    ensures Carries(self, replies + [reply], taken + [value])
  {
    var r, t := replies + [reply], taken + [value];
    forall k | 0 <= k < |r| && r[k].Some? ensures "id" in r[k].value.body && r[k].value.body["id"] == Int(IdOf(self.n, t[k])) {
      if k < |replies| { assert r[k] == replies[k] && t[k] == taken[k]; }
    }
  }

  lemma TakenExtends(replies: seq<Option<Message>>, taken: seq<u64>, value: u64,
                     reply: Option<Message>, counter: u64)
    requires |taken| == |replies| && TakenIncreasing(replies, taken, value)
    requires value <= counter && (reply.Some? ==> value < counter)
    ensures TakenIncreasing(replies + [reply], taken + [value], counter)
  {
    var r, t := replies + [reply], taken + [value];
    assert forall k | 0 <= k < |replies| :: r[k] == replies[k] && t[k] == taken[k];
  }

  /** Increasing counter values below 2^32 on one node below 2^32 give pairwise distinct ids. */
  lemma DistinctReplies(self: NodeId, replies: seq<Option<Message>>, taken: seq<u64>, counter: u64)
    requires |taken| == |replies| && Carries(self, replies, taken)
    requires self.n < TWO_32 && counter <= TWO_32 && TakenIncreasing(replies, taken, counter)
    ensures forall i, j | 0 <= i < j < |replies| && replies[i].Some? && replies[j].Some? ::
              replies[i].value.body["id"] != replies[j].value.body["id"]
  {
    forall i, j | 0 <= i < j < |replies| && replies[i].Some? && replies[j].Some?
      ensures replies[i].value.body["id"] != replies[j].value.body["id"]
    {
      IdsDistinct(self.n, taken[i], self.n, taken[j]);
    }
  }

  /** The counter after a run of messages: each accepted one increments it, wrapping at 2^64. */
  function CounterAfter(counter: u64, run: seq<Message>): u64
    decreases |run|
  {
    if run == [] then counter
    else CounterAfter(if DecodeGenerate(run[0].body).Some? then WrappingInc(counter) else counter, run[1..])
  }

  /** A run moves the counter on by the number of messages it accepts, modulo 2^64. */
  lemma {:induction false} CounterAfterCounts(counter: u64, run: seq<Message>)
    ensures CounterAfter(counter, run) == (counter + Accepted(run)) % U64_LIMIT
    decreases |run|
  {
    if run != [] {
      var next := if DecodeGenerate(run[0].body).Some? then WrappingInc(counter) else counter;
      CounterAfterCounts(next, run[1..]);
      if DecodeGenerate(run[0].body).Some? {
        WrapStep(counter + Accepted(run[1..]));
        assert (next + Accepted(run[1..])) % U64_LIMIT == (counter + 1 + Accepted(run[1..])) % U64_LIMIT by {
          WrapPlus(counter + 1, Accepted(run[1..]));
        }
      }
    }
  }

  /** Wrapping before adding is wrapping after. */
  lemma WrapPlus(a: nat, b: nat)
    ensures (a % U64_LIMIT + b) % U64_LIMIT == (a + b) % U64_LIMIT
  {
    var q := a / U64_LIMIT;
    assert a + b == (a % U64_LIMIT + b) + q * U64_LIMIT;
  }

  /** Incrementing a wrapped counter is wrapping the incremented count. */
  lemma WrapStep(a: nat)
    ensures (a % U64_LIMIT + 1) % U64_LIMIT == (a + 1) % U64_LIMIT
  {
    var r := a % U64_LIMIT;
    assert a == (a / U64_LIMIT) * U64_LIMIT + r;
    if r + 1 == U64_LIMIT {
      assert a + 1 == (a / U64_LIMIT + 1) * U64_LIMIT;
    } else {
      assert a + 1 == (a / U64_LIMIT) * U64_LIMIT + (r + 1);
    }
  }
}
