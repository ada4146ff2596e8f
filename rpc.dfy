/**
 * The node runtime of the Maelstrom library: the initialisation handshake, the
 * per-node message-id allocator, the table of requests waiting for a reply, and the
 * routing of each incoming message either to the waiting request or to the handler.
 * Each operation is one atomic step; the tokio tasks and channels around them are
 * not modelled.
 */
module Rpc {
  import opened Common
  import opened Json
  import opened Ids
  import opened Protocol

  /** `ErrorResponse`: a `code` and a `text` (written with `"type": "error"`). */
  datatype ErrorResponse = ErrorResponse(code: Json, text: string)

  /** `SendError`: building the request failed, or the peer answered with an error body. */
  datatype SendError = JsonError(cause: ProtocolError) | ResponseError(response: ErrorResponse)

  /** Where `listen` sends one incoming message. */
  datatype Routing =
    | Delivered(msgId: u64)   // a reply whose waiter was registered; the waiter is removed
    | Dropped(msgId: u64)     // a reply nobody waits for (late, duplicate or unknown)
    | ToHandler               // not a reply: given to the workload handler

  /**
   * The outcome of the init handshake over the messages seen so far: still waiting for an
   * init request; initialised after skipping `skipped` messages, with the id and the reply;
   * or stopped by the `expect` on a reply that cannot be built.
   */
  datatype InitOutcome =
    | Waiting
    | Initialized(skipped: nat, id: NodeId, reply: Message)
    | Panicked(skipped: nat)

  /**
   * Decoding a reply's payload as `ErrorResponse`: a `code` (kept as the raw JSON) and a
   * string `text`. The `type` the struct is tagged with is written when serialising only.
   */
  function DecodeError(payload: Object): (r: Option<ErrorResponse>)
    ensures r.Some? <==> "code" in payload && FieldStr(payload, "text").Some?
    ensures r.Some? ==> r.value == ErrorResponse(payload["code"], FieldStr(payload, "text").value)
  {
    if "code" in payload && FieldStr(payload, "text").Some? then
      Some(ErrorResponse(payload["code"], payload["text"].s))
    else None
  }

  /**
   * What `send` returns for the reply it waited for: the error when the payload
   * decodes as an error body, otherwise the payload for the caller to decode as `R`.
   */
  function SendOutcome(response: Response): (r: Result<Object, SendError>)
    ensures r.Err? <==> DecodeError(response.payload).Some?
    ensures r.Err? ==> r.error == ResponseError(DecodeError(response.payload).value)
    ensures r.Ok? ==> r.value == response.payload
  {
    match DecodeError(response.payload)
    case Some(e) => Err(ResponseError(e))
    case None => Ok(response.payload)
  }

  /**
   * Decoding a body as `Request<InitRequest>`: a `u64` `msg_id` and a `node_id` that
   * deserialises as a node id (the `init` tag is not read back).
   */
  function DecodeInit(body: Object): (r: Option<Request<NodeId>>)
    ensures r.Some? <==> RequestMsgId(body).Some? && "node_id" in body && DeserializeNodeId(body["node_id"]).Ok?
    ensures r.Some? ==> r.value == Request(RequestMsgId(body).value, DeserializeNodeId(body["node_id"]).value)
  {
    if RequestMsgId(body).Some? && "node_id" in body then
      match DeserializeNodeId(body["node_id"])
      case Ok(id) => Some(Request(RequestMsgId(body).value, id))
      case Err(_) => None
    else None
  }

  /**
   * `Node::initialize`: skips every message until one decodes as an init request and
   * answers it with `init_ok`, yielding the node id it names; when that reply cannot be
   * built (the request has no string `type`) the `expect` stops the process. On a finite
   * input without an init request the handshake is still waiting.
   */
  method Initialize(incoming: seq<Message>) returns (r: InitOutcome)
    ensures r.Waiting? <==> forall i | 0 <= i < |incoming| :: DecodeInit(incoming[i].body).None?
    ensures !r.Waiting? ==> r.skipped < |incoming|
    ensures !r.Waiting? ==> forall i | 0 <= i < r.skipped :: DecodeInit(incoming[i].body).None?
    ensures !r.Waiting? ==> DecodeInit(incoming[r.skipped].body).Some?
    ensures !r.Waiting? ==> (r.Panicked? <==> ReplyOrPanic(incoming[r.skipped], Obj(map[])).None?)
    ensures r.Initialized? ==> var m := incoming[r.skipped];
                               && r.id == DecodeInit(m.body).value.payload
                               && ReplyFor(m, Obj(map[])) == Ok(r.reply)
                               && r.reply.dest == m.src && r.reply.body["type"] == Str(m.body["type"].s + "_ok")
  {
    var i := 0;
    while i < |incoming|
      invariant 0 <= i <= |incoming|
      invariant forall j | 0 <= j < i :: DecodeInit(incoming[j].body).None?
    {
      var m := incoming[i];
      var request := DecodeInit(m.body);
      if request.Some? {
        var reply := ReplyOrPanic(m, Obj(map[]));
        if reply.None? {
          return Panicked(i);
        }
        return Initialized(i, request.value.payload, reply.value);
      }
      i := i + 1;
    }
    return Waiting;
  }

  /** The waiting table of a node as a value: the ids waited for and the replies handed over. */
  datatype Table = Table(waiting: set<u64>, arrived: map<u64, Response>)

  /** One step of `listen` on a table: where `message` goes, and the table after it. */
  function Route(table: Table, message: Message): (Routing, Table) {
    match DecodeResponse(message.body)
    case None => (ToHandler, table)
    case Some(response) =>
      if response.inReplyTo in table.waiting then
        (Delivered(response.inReplyTo),
         Table(table.waiting - {response.inReplyTo}, table.arrived[response.inReplyTo := response]))
      else (Dropped(response.inReplyTo), table)
  }

  /** `listen` over a run of incoming messages: the routings in order and the final table. */
  function ListenRun(table: Table, incoming: seq<Message>): (r: (seq<Routing>, Table))
    ensures |r.0| == |incoming|
    decreases |incoming|
  {
    if incoming == [] then ([], table)
    else
      var before := ListenRun(table, incoming[..|incoming| - 1]);
      var step := Route(before.1, incoming[|incoming| - 1]);
      (before.0 + [step.0], step.1)
  }

  /** The id a message answers, when it decodes as a reply. */
  function Answered(m: Message): set<u64> {
    if DecodeResponse(m.body).Some? then {DecodeResponse(m.body).value.inReplyTo} else {}
  }

  /** The ids the replies among `incoming` answer. */
  function AnsweredIds(incoming: seq<Message>): set<u64> {
    if incoming == [] then {} else AnsweredIds(incoming[..|incoming| - 1]) + Answered(incoming[|incoming| - 1])
  }

  /** An id is answered by a run exactly when one of its messages decodes as a reply to it. */
  lemma {:induction false} AnsweredIdsMembers(incoming: seq<Message>, id: u64)
    ensures id in AnsweredIds(incoming) <==> exists i | 0 <= i < |incoming| ::
              DecodeResponse(incoming[i].body).Some? && DecodeResponse(incoming[i].body).value.inReplyTo == id
    decreases |incoming|
  {
    if incoming != [] {
      var init := incoming[..|incoming| - 1];
      AnsweredIdsMembers(init, id);
      assert forall i | 0 <= i < |init| :: init[i] == incoming[i];
      if id in Answered(incoming[|incoming| - 1]) {
        var last := |incoming| - 1;
        assert DecodeResponse(incoming[last].body).Some? && DecodeResponse(incoming[last].body).value.inReplyTo == id;
      }
    }
  }

  /** Over a run, the waiters removed are exactly those some reply answers. */
  lemma {:induction false} ListenRunWaiting(table: Table, incoming: seq<Message>)
    ensures ListenRun(table, incoming).1.waiting == table.waiting - AnsweredIds(incoming)
    decreases |incoming|
  {
    if incoming != [] {
      ListenRunWaiting(table, incoming[..|incoming| - 1]);
    }
  }

  /** Over a run, an id is delivered exactly when it was waited for and some reply answers it. */
  lemma {:induction false} ListenRunDelivered(table: Table, incoming: seq<Message>, id: u64)
    ensures Delivered(id) in ListenRun(table, incoming).0 <==> id in table.waiting && id in AnsweredIds(incoming)
    decreases |incoming|
  {
    if incoming != [] {
      var init := incoming[..|incoming| - 1];
      ListenRunDelivered(table, init, id);
      ListenRunWaiting(table, init);
    }
  }

  /** Over a run, exactly the messages that are not replies go to the handler. */
  lemma {:induction false} ListenRunHandler(table: Table, incoming: seq<Message>)
    ensures forall i | 0 <= i < |incoming| ::
              (ListenRun(table, incoming).0[i] == ToHandler <==> DecodeResponse(incoming[i].body).None?)
    decreases |incoming|
  {
    if incoming != [] {
      var init := incoming[..|incoming| - 1];
      ListenRunHandler(table, init);
      assert forall i | 0 <= i < |init| :: init[i] == incoming[i];
    }
  }

  /** Over a run, the handed-over replies gain exactly one entry per delivered id. */
  lemma {:induction false} ListenRunArrivedKeys(table: Table, incoming: seq<Message>)
    ensures ListenRun(table, incoming).1.arrived.Keys == table.arrived.Keys + (table.waiting * AnsweredIds(incoming))
    decreases |incoming|
  {
    if incoming != [] {
      var init := incoming[..|incoming| - 1];
      ListenRunArrivedKeys(table, init);
      ListenRunWaiting(table, init);
    }
  }

  /** Over a run, the entry of each delivered id holds the reply that was delivered for it. */
  lemma {:induction false} ListenRunArrived(table: Table, incoming: seq<Message>)
    ensures var r := ListenRun(table, incoming);
            forall i | 0 <= i < |incoming| && r.0[i].Delivered? ::
              && DecodeResponse(incoming[i].body).Some?
              && r.0[i].msgId in r.1.arrived
              && r.1.arrived[r.0[i].msgId] == DecodeResponse(incoming[i].body).value
    decreases |incoming|
  {
    if incoming != [] {
      var init := incoming[..|incoming| - 1];
      var before := ListenRun(table, init);
      var r := ListenRun(table, incoming);
      ListenRunArrived(table, init);
      ListenRunWaiting(table, init);
      assert forall i | 0 <= i < |init| :: init[i] == incoming[i] && r.0[i] == before.0[i];
      forall i | 0 <= i < |init| && before.0[i].Delivered?
        ensures before.0[i].msgId in r.1.arrived && r.1.arrived[before.0[i].msgId] == before.1.arrived[before.0[i].msgId]
      {
        ListenRunDelivered(table, init, before.0[i].msgId);
      }
    }
  }

  /** At most once: a waiter is delivered at most one reply over a run. */
  lemma {:induction false} ListenRunOnce(table: Table, incoming: seq<Message>)
    ensures forall i, j | 0 <= i < j < |incoming| && ListenRun(table, incoming).0[i].Delivered? ::
              ListenRun(table, incoming).0[j] != ListenRun(table, incoming).0[i]
    decreases |incoming|
  {
    if incoming != [] {
      var init := incoming[..|incoming| - 1];
      var before := ListenRun(table, init);
      var r := ListenRun(table, incoming);
      ListenRunOnce(table, init);
      ListenRunWaiting(table, init);
      forall i | 0 <= i < |init| && before.0[i].Delivered?
        ensures r.0[|init|] != before.0[i]
      {
        ListenRunDelivered(table, init, before.0[i].msgId);
      }
    }
  }

  /** The ids of the sends that registered a waiter: those whose request could be built. */
  function Registered(ids: seq<u64>, rs: seq<Result<Message, SendError>>): set<u64>
    requires |ids| == |rs|
  {
    if ids == [] then {}
    else Registered(ids[..|ids| - 1], rs[..|rs| - 1]) + (if rs[|rs| - 1].Ok? then {ids[|ids| - 1]} else {})
  }

  /** An id is registered exactly when one of the sends drew it and built its request. */
  lemma {:induction false} RegisteredMembers(ids: seq<u64>, rs: seq<Result<Message, SendError>>, x: u64)
    requires |ids| == |rs|
    ensures x in Registered(ids, rs) <==> exists i | 0 <= i < |ids| :: rs[i].Ok? && ids[i] == x
    decreases |ids|
  {
    if ids != [] {
      var n := |ids| - 1;
      RegisteredMembers(ids[..n], rs[..n], x);
      assert forall i | 0 <= i < n :: ids[..n][i] == ids[i] && rs[..n][i] == rs[i];
      if rs[n].Ok? && ids[n] == x {
        assert exists i | 0 <= i < |ids| :: rs[i].Ok? && ids[i] == x;
      }
    }
  }

  /** What a `send` of `payload` with id `msgId` yields: the request it sends, or why it could not be built. */
  function Sent(self: NodeId, dest: PeerId, msgId: u64, payload: Json): Result<Message, SendError> {
    match RequestTo(self, dest, msgId, payload)
    case Ok(request) => Ok(request)
    case Err(e) => Err(JsonError(e))
  }

  /** The table after a send with id `msgId`: a built request registers a fresh waiter. */
  function Register(table: Table, msgId: u64, r: Result<Message, SendError>): Table {
    if r.Ok? then Table(table.waiting + {msgId}, table.arrived - {msgId}) else table
  }

  /** `send` as a function of the id it draws and the payload, for a node `self` sending to `dest`. */
  function Sender(self: NodeId, dest: PeerId): (u64, Json) -> Result<Message, SendError> {
    (msgId: u64, payload: Json) => Sent(self, dest, msgId, payload)
  }

  /**
   * A run of sends over `payloads`, the `i`-th drawing id `Wrapped(start, i)` and yielding
   * `send(id, payload)`: the results in order and the final table.
   */
  function SendRun(table: Table, send: (u64, Json) -> Result<Message, SendError>, start: u64, payloads: seq<Json>)
    : (r: (seq<Result<Message, SendError>>, Table))
    ensures |r.0| == |payloads|
    decreases |payloads|
  {
    if payloads == [] then ([], table)
    else
      var n := |payloads| - 1;
      var before := SendRun(table, send, start, payloads[..n]);
      var sent := send(Wrapped(start, n), payloads[n]);
      (before.0 + [sent], Register(before.1, Wrapped(start, n), sent))
  }

  /** The `i`-th send yields the outcome for the `i`-th id drawn. */
  lemma {:induction false} SendRunResults(table: Table, send: (u64, Json) -> Result<Message, SendError>, start: u64, payloads: seq<Json>)
    ensures var r := SendRun(table, send, start, payloads);
            forall i | 0 <= i < |payloads| :: r.0[i] == send(Wrapped(start, i), payloads[i])
    decreases |payloads|
  {
    if payloads != [] {
      var n := |payloads| - 1;
      SendRunResults(table, send, start, payloads[..n]);
      assert forall i | 0 <= i < n :: payloads[..n][i] == payloads[i];
    }
  }

  /** A run of sends adds the registered ids to the waiters and clears their stale replies. */
  lemma {:induction false} SendRunTable(table: Table, send: (u64, Json) -> Result<Message, SendError>, start: u64, payloads: seq<Json>, ids: seq<u64>)
    requires |ids| == |payloads| && DrawnFrom(start, ids)
    ensures var r := SendRun(table, send, start, payloads);
            && r.1.waiting == table.waiting + Registered(ids, r.0)
            && r.1.arrived == table.arrived - Registered(ids, r.0)
    decreases |payloads|
  {
    if payloads != [] {
      var n := |payloads| - 1;
      var r := SendRun(table, send, start, payloads);
      var before := SendRun(table, send, start, payloads[..n]);
      assert DrawnFrom(start, ids[..n]);
      SendRunTable(table, send, start, payloads[..n], ids[..n]);
      assert r.0[..n] == before.0;
      assert Registered(ids, r.0) == Registered(ids[..n], before.0) + (if r.0[n].Ok? then {ids[n]} else {});
    }
  }

  /** A table with the ids in `Registered(ids, rs)` added as waiters and their stale replies removed. */
  function RegisterAll(table: Table, ids: seq<u64>, rs: seq<Result<Message, SendError>>): Table
    requires |ids| == |rs|
  {
    Table(table.waiting + Registered(ids, rs), table.arrived - Registered(ids, rs))
  }

  /**
   * A run of `send`s from `self` to `dest` with ids `ids` drawn from `start`: the `i`-th
   * outcome is the request built with `ids[i]`, and exactly the ids whose request was
   * built become waiters.
   */
  lemma SendRunSpec(table: Table, self: NodeId, dest: PeerId, start: u64, payloads: seq<Json>, ids: seq<u64>)
    requires |ids| == |payloads| && DrawnFrom(start, ids)
    ensures var r := SendRun(table, Sender(self, dest), start, payloads);
            && (forall i | 0 <= i < |payloads| :: r.0[i] == Sent(self, dest, ids[i], payloads[i]))
            && r.1 == RegisterAll(table, ids, r.0)
  {
    SendRunResults(table, Sender(self, dest), start, payloads);
    SendRunTable(table, Sender(self, dest), start, payloads, ids);
  }

  /** `Node`: its id, the message-id counter and the table of requests waiting for a reply. */
  class Node {
    const id: NodeId
    /** `latest_message_id`, an `AtomicU64`: the next id to hand out. */
    var latestMessageId: u64
    /** The keys of `waiting_for`: requests sent whose reply has not arrived. */
    var waitingFor: set<u64>
    /** Replies handed over a waiter's oneshot channel and not yet taken by `send`. */
    var arrived: map<u64, Response>

    /** A request is never both waiting and answered. */
    ghost predicate Valid()
      reads this
    {
      waitingFor !! arrived.Keys
    }

    /** `Node::new`: counter 0 and no request waiting. */
    constructor (id: NodeId)
      ensures Valid()
      ensures this.id == id && latestMessageId == 0 && waitingFor == {} && arrived == map[]
    {
      this.id := id;
      latestMessageId := 0;
      waitingFor := {};
      arrived := map[];
    }

    /**
     * The first half of `send`: takes the counter's value as `msg_id` (the counter
     * wraps at 2^64 like `fetch_add`), builds the request and, when that succeeds,
     * registers the waiter as `wait_for_reply` does. The request is what goes out.
     */
    method Send(dest: PeerId, payload: Json) returns (r: Result<Message, SendError>)
      requires Valid()
      modifies this
      ensures Valid()
      ensures latestMessageId == (old(latestMessageId) + 1) % U64_LIMIT
      ensures r == Sent(id, dest, old(latestMessageId), payload)
      ensures Table(waitingFor, arrived) == Register(Table(old(waitingFor), old(arrived)), old(latestMessageId), r)
    {
      var msgId := latestMessageId;
      latestMessageId := (latestMessageId + 1) % U64_LIMIT;
      var request := RequestTo(id, dest, msgId, payload);
      if request.Err? {
        return Err(JsonError(request.error));
      }
      waitingFor := waitingFor + {msgId};
      arrived := arrived - {msgId};
      return Ok(request.value);
    }

    /**
     * `send` called once per payload, in order. The `i`-th call draws the id the counter
     * held `i` draws before (wrapping at 2^64) and, when its request can be built, registers
     * a waiter for it. Fewer than 2^64 calls never draw an id twice, and the ids strictly
     * increase as long as the counter does not wrap.
     */
    /** `send` once per payload, in order: the loop of `SendAll`, stated against `SendRun`. */
    method SendEach(dest: PeerId, payloads: seq<Json>) returns (ids: seq<u64>, rs: seq<Result<Message, SendError>>)
      requires Valid()
      modifies this
      ensures Valid()
      ensures |ids| == |payloads|
      ensures latestMessageId == Wrapped(old(latestMessageId), |payloads|)
      ensures DrawnFrom(old(latestMessageId), ids)
      ensures (rs, Table(waitingFor, arrived))
              == SendRun(Table(old(waitingFor), old(arrived)), Sender(id, dest), old(latestMessageId), payloads)
    {
      ids, rs := [], [];
      ghost var start, t0 := latestMessageId, Table(waitingFor, arrived);
      var i := 0;
      while i < |payloads|
        invariant 0 <= i <= |payloads| && |ids| == i
        invariant Valid()
        invariant latestMessageId == Wrapped(start, i)
        invariant DrawnFrom(start, ids)
        invariant (rs, Table(waitingFor, arrived)) == SendRun(t0, Sender(id, dest), start, payloads[..i])
      {
        WrappedStep(start, i);
        DrawnFromSnoc(start, ids);
        var msgId := latestMessageId;
        var r := Send(dest, payloads[i]);
        assert payloads[..i + 1][..i] == payloads[..i];
        ids, rs := ids + [msgId], rs + [r];
        i := i + 1;
      }
      assert payloads[..i] == payloads;
    }

    method SendAll(dest: PeerId, payloads: seq<Json>) returns (ids: seq<u64>, rs: seq<Result<Message, SendError>>)
      requires Valid()
      modifies this
      ensures Valid()
      ensures |ids| == |payloads| && |rs| == |payloads|
      ensures latestMessageId == Wrapped(old(latestMessageId), |payloads|)
      ensures forall i | 0 <= i < |payloads| :: ids[i] == Wrapped(old(latestMessageId), i)
      ensures (rs, Table(waitingFor, arrived))
              == SendRun(Table(old(waitingFor), old(arrived)), Sender(id, dest), old(latestMessageId), payloads)
      ensures forall i | 0 <= i < |payloads| :: rs[i] == Sent(id, dest, ids[i], payloads[i])
      ensures Table(waitingFor, arrived) == RegisterAll(Table(old(waitingFor), old(arrived)), ids, rs)
      ensures |payloads| <= U64_LIMIT ==> Distinct(ids)
      ensures old(latestMessageId) + |payloads| <= U64_LIMIT ==>
                forall i, j | 0 <= i < j < |payloads| :: ids[i] < ids[j]
    {
      ghost var start, t0 := latestMessageId, Table(waitingFor, arrived);
      ids, rs := SendEach(dest, payloads);
      SendRunSpec(t0, id, dest, start, payloads, ids);
      if |payloads| <= U64_LIMIT {
        DrawnDistinct(start, ids);
      }
      if start + |payloads| <= U64_LIMIT {
        DrawnIncreasing(start, ids);
      }
    }

    /**
     * One iteration of `listen`: a message that decodes as a `Response` whose id is
     * waited for removes that waiter and hands it the response; a response nobody waits
     * for is dropped; anything else goes to the handler and leaves the table alone.
     */
    method Listen(message: Message) returns (routing: Routing)
      requires Valid()
      modifies this
      ensures Valid()
      ensures latestMessageId == old(latestMessageId)
      ensures DecodeResponse(message.body).None? ==>
                routing == ToHandler && waitingFor == old(waitingFor) && arrived == old(arrived)
      ensures DecodeResponse(message.body).Some? ==>
                var response := DecodeResponse(message.body).value;
                if response.inReplyTo in old(waitingFor) then
                  && routing == Delivered(response.inReplyTo)
                  && waitingFor == old(waitingFor) - {response.inReplyTo}
                  && arrived == old(arrived)[response.inReplyTo := response]
                else
                  routing == Dropped(response.inReplyTo) && waitingFor == old(waitingFor) && arrived == old(arrived)
      ensures (routing, Table(waitingFor, arrived)) == Route(Table(old(waitingFor), old(arrived)), message)
    {
      var decoded := DecodeResponse(message.body);
      if decoded.None? {
        return ToHandler;
      }
      var response := decoded.value;
      if response.inReplyTo in waitingFor {
        waitingFor := waitingFor - {response.inReplyTo};
        arrived := arrived[response.inReplyTo := response];
        return Delivered(response.inReplyTo);
      }
      return Dropped(response.inReplyTo);
    }

    /**
     * The second half of `send`: once the reply for `msgId` has arrived, removes the
     * waiter (as `wait_for_reply` does) and splits the reply into an error or a result.
     * Before it arrives the call is still waiting: `None`, nothing changes.
     */
    method TakeReply(msgId: u64) returns (r: Option<Result<Object, SendError>>)
      requires Valid()
      modifies this
      ensures Valid()
      ensures latestMessageId == old(latestMessageId)
      ensures msgId !in old(arrived) ==> r.None? && waitingFor == old(waitingFor) && arrived == old(arrived)
      ensures msgId in old(arrived) ==>
                && r == Some(SendOutcome(old(arrived)[msgId]))
                && waitingFor == old(waitingFor) - {msgId}
                && arrived == old(arrived) - {msgId}
    {
      if msgId !in arrived {
        return None;
      }
      var response := arrived[msgId];
      arrived := arrived - {msgId};
      waitingFor := waitingFor - {msgId};
      return Some(SendOutcome(response));
    }

    /**
     * The `listen` loop over a finite run of incoming messages, one routing per message:
     * the routings and the new table are those of `ListenRun`, so every waiter some reply
     * answers is removed and delivered that reply, once, and nothing else is delivered.
     */
    method ListenAll(incoming: seq<Message>) returns (routings: seq<Routing>)
      requires Valid()
      modifies this
      ensures Valid()
      ensures latestMessageId == old(latestMessageId)
      ensures (routings, Table(waitingFor, arrived)) == ListenRun(Table(old(waitingFor), old(arrived)), incoming)
      ensures |routings| == |incoming|
      ensures forall i | 0 <= i < |incoming| ::
                (routings[i] == ToHandler <==> DecodeResponse(incoming[i].body).None?)
      ensures waitingFor == old(waitingFor) - AnsweredIds(incoming)
      ensures forall id: u64 :: Delivered(id) in routings <==> id in old(waitingFor) - waitingFor
      ensures forall i | 0 <= i < |incoming| && routings[i].Delivered? ::
                routings[i].msgId in arrived && arrived[routings[i].msgId] == DecodeResponse(incoming[i].body).value
      ensures forall i, j | 0 <= i < j < |incoming| && routings[i].Delivered? :: routings[j] != routings[i]
      ensures arrived.Keys == old(arrived).Keys + (old(waitingFor) - waitingFor)
    {
      routings := [];
      var i := 0;
      while i < |incoming|
        invariant 0 <= i <= |incoming|
        invariant Valid() && latestMessageId == old(latestMessageId)
        invariant (routings, Table(waitingFor, arrived)) == ListenRun(Table(old(waitingFor), old(arrived)), incoming[..i])
      {
        var routing := Listen(incoming[i]);
        assert incoming[..i + 1][..i] == incoming[..i];
        routings := routings + [routing];
        i := i + 1;
      }
      assert incoming[..|incoming|] == incoming;
      var start := Table(old(waitingFor), old(arrived));
      ListenRunHandler(start, incoming);
      ListenRunWaiting(start, incoming);
      ListenRunArrived(start, incoming);
      ListenRunArrivedKeys(start, incoming);
      ListenRunOnce(start, incoming);
      forall id: u64 ensures Delivered(id) in routings <==> id in old(waitingFor) - waitingFor {
        ListenRunDelivered(start, incoming, id);
      }
    }
  }

  /**
   * At-most-once resolution: the first reply to a waiting request is delivered, an
   * identical second reply is dropped and leaves the table as the first left it.
   */
  method ReplyResolvesOnce(node: Node, reply: Message) returns (first: Routing, second: Routing)
    requires node.Valid()
    requires DecodeResponse(reply.body).Some? && DecodeResponse(reply.body).value.inReplyTo in node.waitingFor
    modifies node
    ensures first == Delivered(DecodeResponse(reply.body).value.inReplyTo)
    ensures second == Dropped(DecodeResponse(reply.body).value.inReplyTo)
    ensures node.waitingFor == old(node.waitingFor) - {DecodeResponse(reply.body).value.inReplyTo}
  {
    first := node.Listen(reply);
    second := node.Listen(reply);
  }
}
