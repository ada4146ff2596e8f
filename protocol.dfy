/**
 * The message envelope of the Maelstrom node library: a source, a destination and a
 * JSON object body. Requests carry `msg_id`; replies carry `in_reply_to` echoing it
 * and a `type` that is the request's type with `_ok` appended.
 */
module Protocol {
  import opened Common
  import opened Json
  import opened Ids

  datatype Message = Message(src: PeerId, dest: PeerId, body: Object)

  /** The ways `reply_for` and `request_to` fail. */
  datatype ProtocolError =
    | NotARequest        // "message is not a request"
    | TypeUndefined      // "message.type is undefined"
    | TypeNotString      // "message.type is not a string"
    | PayloadNotObject   // "payload is not an object"
    | CannotFlatten      // serde refuses to flatten a payload that is neither a map nor unit

  /** `Request<P>`: a message id and the payload's own fields, flattened beside it. */
  datatype Request<P> = Request(msgId: u64, payload: P)

  /** `Response`: the id of the request answered and every other field of the body. */
  datatype Response = Response(inReplyTo: u64, payload: Object)

  /** `Message::source`. */
  function Source(m: Message): PeerId {
    m.src
  }

  /** `Message::in_reply_to`: the body's `in_reply_to`, when it is a number that fits in a `u64`. */
  function InReplyTo(m: Message): (r: Option<u64>)
    ensures r.Some? <==> "in_reply_to" in m.body && AsU64(m.body["in_reply_to"]).Some?
    ensures r.Some? ==> m.body["in_reply_to"] == Int(r.value)
  {
    if "in_reply_to" in m.body then
      match m.body["in_reply_to"]
      case Int(n) => if 0 <= n < U64_LIMIT then Some(n) else None
      case _ => None
    else None
  }

  /** The `msg_id` field as `Request<P>` decodes it: a `u64`, or the decode fails. */
  function RequestMsgId(body: Object): Option<u64> {
    FieldU64(body, "msg_id")
  }

  /** Decoding a body as `Response`: `in_reply_to` is taken out and the rest is the payload. */
  function DecodeResponse(body: Object): (r: Option<Response>)
    ensures r.Some? <==> FieldU64(body, "in_reply_to").Some?
    ensures r.Some? ==> body == r.value.payload[ "in_reply_to" := Int(r.value.inReplyTo)]
    ensures r.Some? ==> "in_reply_to" !in r.value.payload
  {
    match FieldU64(body, "in_reply_to")
    case Some(n) =>
      var rest := body - {"in_reply_to"};
      assert body == rest["in_reply_to" := Int(n)];
      Some(Response(n, rest))
    case None => None
  }

  /** The fields a payload contributes when flattened (`#[serde(flatten)]`). */
  function Flatten(payload: Json): Result<Object, ProtocolError> {
    match payload
    case Obj(fields) => Ok(fields)
    case Null => Ok(map[])
    case _ => Err(CannotFlatten)
  }

  /**
   * `Message::request_to`: a message from node `src` to `dest` whose body is `msg_id`
   * beside the payload's fields (a payload field of the same name is written last and wins).
   */
  function RequestTo(src: NodeId, dest: PeerId, msgId: u64, payload: Json): (r: Result<Message, ProtocolError>)
    ensures r.Ok? <==> payload.Obj? || payload.Null?
    ensures r.Ok? ==> r.value.src == Node(src) && r.value.dest == dest
    ensures r.Ok? && payload.Obj? ==> r.value.body.Keys == payload.fields.Keys + {"msg_id"}
    ensures r.Ok? && payload.Obj? ==> forall k | k in payload.fields :: r.value.body[k] == payload.fields[k]
    ensures r.Ok? ==> "msg_id" in r.value.body
    ensures r.Ok? && (payload.Null? || "msg_id" !in payload.fields) ==> r.value.body["msg_id"] == Int(msgId)
  {
    var fields :- Flatten(payload);
    Ok(Message(Node(src), dest, map["msg_id" := Int(msgId)] + fields))
  }

  /**
   * `Message::reply_for`: swaps source and destination, and builds the body from the
   * payload's fields with `in_reply_to` set to the request's `msg_id` and `type` set to
   * the request's type followed by `_ok`.
   */
  function ReplyFor(request: Message, payload: Json): (r: Result<Message, ProtocolError>)
    ensures "msg_id" !in request.body ==> r == Err(NotARequest)
    ensures "msg_id" in request.body && "type" !in request.body ==> r == Err(TypeUndefined)
    ensures "msg_id" in request.body && "type" in request.body && !request.body["type"].Str?
            ==> r == Err(TypeNotString)
    ensures "msg_id" in request.body && FieldStr(request.body, "type").Some? && !payload.Obj?
            ==> r == Err(PayloadNotObject)
    ensures r.Ok? <==> "msg_id" in request.body && FieldStr(request.body, "type").Some? && payload.Obj?
    ensures r.Ok? ==> r.value.src == request.dest && r.value.dest == request.src
    ensures r.Ok? ==> r.value.body.Keys == payload.fields.Keys + {"in_reply_to", "type"}
    ensures r.Ok? ==> r.value.body["in_reply_to"] == request.body["msg_id"]
    ensures r.Ok? ==> r.value.body["type"] == Str(request.body["type"].s + "_ok")
    ensures r.Ok? ==> forall k | k in payload.fields && k != "in_reply_to" && k != "type" ::
                        r.value.body[k] == payload.fields[k]
  {
    if "msg_id" !in request.body then Err(NotARequest)
    else if "type" !in request.body then Err(TypeUndefined)
    else if !request.body["type"].Str? then Err(TypeNotString)
    else if !payload.Obj? then Err(PayloadNotObject)
    else
      var body := payload.fields["in_reply_to" := request.body["msg_id"]]
                                ["type" := Str(request.body["type"].s + "_ok")];
      Ok(Message(request.dest, request.src, body))
  }

  /**
   * The reply a handler sends with `reply_for(...).expect(...)`: the reply when it can be
   * built, and `None` where building it fails and the `expect` panics the handling task.
   */
  function ReplyOrPanic(request: Message, payload: Json): (r: Option<Message>)
    ensures r.Some? <==> "msg_id" in request.body && FieldStr(request.body, "type").Some? && payload.Obj?
    ensures r.Some? ==> ReplyFor(request, payload) == Ok(r.value)
  {
    match ReplyFor(request, payload)
    case Ok(m) => Some(m)
    case Err(_) => None
  }

  /** `in_reply_to()` reads exactly what `DecodeResponse` reads. */
  lemma InReplyToIsResponseId(m: Message)
    ensures InReplyTo(m).Some? <==> DecodeResponse(m.body).Some?
    ensures InReplyTo(m).Some? ==> DecodeResponse(m.body).value.inReplyTo == InReplyTo(m).value
  {
  }

  /**
   * Correlation round trip: a reply to a request built by `request_to` (whose payload
   * names its type and no `msg_id`/`in_reply_to` of its own) goes back to the requesting
   * node and decodes as a `Response` to the same message id, carrying the reply payload.
   */
  lemma {:induction false} ReplyAnswersRequest(src: NodeId, dest: PeerId, msgId: u64,
                                               requestFields: Object, t: string, replyFields: Object)
    requires "type" in requestFields && requestFields["type"] == Str(t)
    requires "msg_id" !in requestFields
    ensures RequestTo(src, dest, msgId, Obj(requestFields)).Ok?
    ensures var request := RequestTo(src, dest, msgId, Obj(requestFields)).value;
            var reply := ReplyFor(request, Obj(replyFields));
            && reply.Ok?
            && reply.value.src == dest && reply.value.dest == Node(src)
            && InReplyTo(reply.value) == Some(msgId)
            && DecodeResponse(reply.value.body)
               == Some(Response(msgId, (replyFields - {"in_reply_to"})["type" := Str(t + "_ok")]))
  {
    var request := RequestTo(src, dest, msgId, Obj(requestFields)).value;
    assert request.body["msg_id"] == Int(msgId);
    assert request.body["type"] == Str(t);
    var reply := ReplyFor(request, Obj(replyFields)).value;
    var expected := (replyFields - {"in_reply_to"})["type" := Str(t + "_ok")];
    assert reply.body - {"in_reply_to"} == expected;
  }
}
