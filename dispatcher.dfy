/**
 * The single-process node: it reads one message at a time, answers every one of them,
 * and keeps its state in an optional node that an `init` request creates. Before that
 * request every message is refused; afterwards the node echoes, generates ids, stores
 * and reads broadcast values and acknowledges topologies, and refuses everything else.
 */
module Dispatcher {
  import opened Common
  import opened Ids
  import Id
  import UniqueIds

  /** `ErrorCode`. */
  datatype ErrorCode =
    | Timeout | NodeNotFound | NotSupported | TemporarilyUnavailable | MalformedRequest | Crash
    | Abort | KeyDoesNotExist | KeyAlreadyExists | PreconditionFailed | TransactionConflict

  /** `Value`: the body's payload, tagged by `type`. */
  datatype Value =
    | Echo(echo: string)
    | EchoOk(echo: string)
    | Init(nodeId: NodeId, nodeIds: seq<NodeId>)
    | InitOk
    | Broadcast(message: MessageId)
    | BroadcastOk
    | Read
    | ReadOk(messages: seq<MessageId>)
    | Generate
    | GenerateOk(id: u64)
    | Topology(topology: map<NodeId, seq<NodeId>>)
    | TopologyOk
    | Error(code: ErrorCode, text: string)

  /** `Body`: the optional message ids beside the flattened value. */
  datatype Body = Body(msgId: Option<MessageId>, inReplyTo: Option<MessageId>, value: Value)

  datatype Message = Message(src: PeerId, dest: PeerId, body: Body)

  const NOT_SUPPORTED_TEXT := "Not supported"
  const NOT_INITIALISED_TEXT := "node is not initialised"

  /** `items` lists every element of `values` once, in some order. */
  predicate Lists(items: seq<MessageId>, values: set<MessageId>) {
    && Distinct(items)
    && (forall i | 0 <= i < |items| :: items[i] in values)
    && (forall m | m in values :: m in items)
  }

  /**
   * The reply header `main` builds around a value: from the node (or from node 0 before
   * there is one) back to the sender, answering the request's `msg_id`.
   */
  function ReplyTo(node: Option<NodeId>, request: Message, msgId: MessageId, value: Value): (r: Message)
    ensures r.dest == request.src && r.body.inReplyTo == request.body.msgId
    ensures r.src == Node(if node.Some? then node.value else NodeId(0))
    ensures r.body.msgId == Some(msgId) && r.body.value == value
  {
    var src := match node
      case Some(id) => id
      case None => NodeId(0);
    Message(Node(src), request.src, Body(Some(msgId), request.body.msgId, value))
  }

  /** `Node`: its id, the counter behind generated ids and the stored broadcast values. */
  class Node {
    const id: NodeId
    var idsCounter: u64
    var messages: set<MessageId>

    /** `Node::new`. */
    constructor (id: NodeId)
      ensures this.id == id && idsCounter == 0 && messages == {}
    {
      this.id := id;
      idsCounter := 0;
      messages := {};
    }

    /** `generate_id`: `id << 32 | count`, with `count` taken from the counter, which then moves on. */
    method GenerateId() returns (r: u64)
      modifies this
      ensures r == UniqueIds.IdOf(id.n, old(idsCounter))
      ensures idsCounter == UniqueIds.WrappingInc(old(idsCounter)) && messages == old(messages)
    {
      var count := idsCounter;
      idsCounter := UniqueIds.WrappingInc(idsCounter);
      r := UniqueIds.IdOf(id.n, count);
    }

    /** `store_message`. */
    method StoreMessage(message: MessageId)
      modifies this
      ensures messages == old(messages) + {message} && idsCounter == old(idsCounter)
    {
      messages := messages + {message};
    }

    /** `read_messages`: every stored value once, in the set's iteration order. */
    method ReadMessages() returns (items: seq<MessageId>)
      ensures Lists(items, messages)
    {
      items := [];
      var rest := messages;
      while rest != {}
        invariant rest <= messages
        invariant Distinct(items)
        invariant forall i | 0 <= i < |items| :: items[i] in messages - rest
        invariant forall m | m in messages - rest :: m in items
        decreases rest
      {
        var m :| m in rest;
        items := items + [m];
        rest := rest - {m};
      }
    }
  }

  /** The state of the `main` loop: the node, once there is one, and the process-wide message ids. */
  class Process {
    var node: Option<Node>
    const messageIds: Id.MessageCounter

    /** Before the first line: no node, and message ids start at 0. */
    constructor ()
      ensures node.None? && messageIds.value == 0
    {
      node := None;
      messageIds := new Id.MessageCounter();
    }

    /** The node's id, or nothing before `init`. */
    function NodeIdOf(): Option<NodeId>
      reads this
    {
      match node
      case Some(n) => Some(n.id)
      case None => None
    }

    /**
     * One turn of the `main` loop on a parsed message. Before `init` only an `Init`
     * is accepted; it creates the node and is answered `InitOk`, and every other value
     * is answered `PreconditionFailed`. Afterwards each request is mapped to its reply,
     * a second `Init` included among the refused ones. The reply comes from the node
     * as it is after the message, goes back to the sender, answers the request's
     * `msg_id`, and carries the next process-wide message id.
     */
    method Step(request: Message) returns (reply: Message)
      modifies this, messageIds, if node.Some? then {node.value} else {}
      ensures messageIds.value == (old(messageIds.value) + 1) % U64_LIMIT
      ensures reply.dest == request.src && reply.body.inReplyTo == request.body.msgId
      ensures reply.body.msgId == Some(MessageId(old(messageIds.value)))
      ensures reply.src == Node(if node.Some? then node.value.id else NodeId(0))
      ensures old(node).None? && request.body.value.Init? ==>
                && node.Some? && fresh(node.value)
                && node.value.id == request.body.value.nodeId
                && node.value.idsCounter == 0 && node.value.messages == {}
                && reply.body.value == InitOk
      ensures old(node).None? && !request.body.value.Init? ==>
                node.None? && reply.body.value == Error(PreconditionFailed, NOT_INITIALISED_TEXT)
      ensures old(node).Some? ==> node == old(node)
      ensures old(node).Some? ==>
                var n := node.value;
                match request.body.value
                case Echo(echo) =>
                  reply.body.value == EchoOk(echo) && unchanged(n)
                case Generate =>
                  && reply.body.value == GenerateOk(UniqueIds.IdOf(n.id.n, old(n.idsCounter)))
                  && n.idsCounter == UniqueIds.WrappingInc(old(n.idsCounter)) && n.messages == old(n.messages)
                case Broadcast(m) =>
                  reply.body.value == BroadcastOk && n.messages == old(n.messages) + {m} && n.idsCounter == old(n.idsCounter)
                case Read =>
                  reply.body.value.ReadOk? && Lists(reply.body.value.messages, n.messages) && unchanged(n)
                case Topology(_) =>
                  reply.body.value == TopologyOk && unchanged(n)
                case _ =>
                  reply.body.value == Error(NotSupported, NOT_SUPPORTED_TEXT) && unchanged(n)
    {
      var value: Value;
      if node.Some? {
        var n := node.value;
        match request.body.value
        case Echo(echo) =>
          value := EchoOk(echo);
        case Generate =>
          var id := n.GenerateId();
          value := GenerateOk(id);
        case Broadcast(m) =>
          n.StoreMessage(m);
          value := BroadcastOk;
        case Read =>
          var items := n.ReadMessages();
          value := ReadOk(items);
        case Topology(_) =>
          value := TopologyOk;
        case _ =>
          value := Error(NotSupported, NOT_SUPPORTED_TEXT);
      } else if request.body.value.Init? {
        var n := new Node(request.body.value.nodeId);
        node := Some(n);
        value := InitOk;
      } else {
        value := Error(PreconditionFailed, NOT_INITIALISED_TEXT);
      }
      var msgId := messageIds.Next();
      reply := ReplyTo(NodeIdOf(), request, msgId, value);
    }
  }
}
