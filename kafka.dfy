/**
 * The Kafka-style log workload's handler: one append-only log of `u32` messages per
 * string key. `send` appends and answers with the offset the message got, `poll`
 * answers with every message from a requested offset on, `commit_offsets` is only
 * acknowledged, and `list_committed_offsets` answers with the current length of
 * each requested log.
 */
module Kafka {
  import opened Common
  import opened Json
  import opened Protocol

  type Logs = map<string, seq<u32>>

  /** One polled message: its offset in the log and the message itself. */
  type Entry = (nat, u32)

  /** The four request kinds, tagged by `type` in snake case. */
  datatype KafkaRequest =
    | Send(key: string, msg: u32)
    | Poll(offsets: map<string, u32>)
    | CommitOffsets(offsets: map<string, u32>)
    | ListCommittedOffsets(keys: set<string>)

  // =====================================================================
  // Decoding the requests
  // =====================================================================

  /** `HashMap<String, u32>` read from a JSON object: every value must be a `u32`. */
  function DecodeOffsets(j: Json): (r: Option<map<string, u32>>)
    ensures r.Some? <==> j.Obj? && forall k | k in j.fields :: j.fields[k].Int? && 0 <= j.fields[k].i < U32_LIMIT
    ensures r.Some? ==> r.value.Keys == j.fields.Keys && forall k | k in r.value :: j.fields[k] == Int(r.value[k])
  {
    if j.Obj? && forall k | k in j.fields :: j.fields[k].Int? && 0 <= j.fields[k].i < U32_LIMIT then
      Some(map k | k in j.fields :: j.fields[k].i)
    else None
  }

  /** `HashSet<String>` read from a JSON array: every item must be a string; repeats collapse. */
  function DecodeKeys(j: Json): (r: Option<set<string>>)
    ensures r.Some? <==> j.Arr? && forall i | 0 <= i < |j.items| :: j.items[i].Str?
    ensures r.Some? ==> forall k :: k in r.value <==> Str(k) in j.items
  {
    if j.Arr? && forall i | 0 <= i < |j.items| :: j.items[i].Str? then
      Some(set i | 0 <= i < |j.items| :: j.items[i].s)
    else None
  }

  /** The payload of `Request<Request>`, chosen by the `type` tag. */
  function DecodePayload(body: Object): (r: Option<KafkaRequest>)
    ensures r.Some? ==> "type" in body && body["type"].Str?
    ensures r.Some? && r.value.Send? <==> HasTag(body, "type", "send") && FieldStr(body, "key").Some? && FieldU32(body, "msg").Some?
    ensures r.Some? && r.value.Send? ==> r.value == Send(FieldStr(body, "key").value, FieldU32(body, "msg").value)
    ensures r.Some? && r.value.Poll? <==> HasTag(body, "type", "poll") && "offsets" in body && DecodeOffsets(body["offsets"]).Some?
    ensures r.Some? && r.value.Poll? ==> r.value.offsets == DecodeOffsets(body["offsets"]).value
    ensures r.Some? && r.value.CommitOffsets? <==>
              HasTag(body, "type", "commit_offsets") && "offsets" in body && DecodeOffsets(body["offsets"]).Some?
    ensures r.Some? && r.value.ListCommittedOffsets? <==>
              HasTag(body, "type", "list_committed_offsets") && "keys" in body && DecodeKeys(body["keys"]).Some?
    ensures r.Some? && r.value.ListCommittedOffsets? ==> r.value.keys == DecodeKeys(body["keys"]).value
  {
    if HasTag(body, "type", "send") then
      if FieldStr(body, "key").Some? && FieldU32(body, "msg").Some? then
        Some(Send(FieldStr(body, "key").value, FieldU32(body, "msg").value))
      else None
    else if HasTag(body, "type", "poll") then
      if "offsets" in body && DecodeOffsets(body["offsets"]).Some? then Some(Poll(DecodeOffsets(body["offsets"]).value))
      else None
    else if HasTag(body, "type", "commit_offsets") then
      if "offsets" in body && DecodeOffsets(body["offsets"]).Some? then Some(CommitOffsets(DecodeOffsets(body["offsets"]).value))
      else None
    else if HasTag(body, "type", "list_committed_offsets") then
      if "keys" in body && DecodeKeys(body["keys"]).Some? then Some(ListCommittedOffsets(DecodeKeys(body["keys"]).value))
      else None
    else None
  }

  /** `Request<Request>`: a `u64` `msg_id` beside the tagged payload. */
  function Decode(body: Object): (r: Option<Request<KafkaRequest>>)
    ensures r.Some? <==> RequestMsgId(body).Some? && DecodePayload(body).Some?
    ensures r.Some? ==> r.value == Request(RequestMsgId(body).value, DecodePayload(body).value)
    ensures r.Some? ==> "msg_id" in body && FieldStr(body, "type").Some?
  {
    if RequestMsgId(body).Some? && DecodePayload(body).Some? then
      Some(Request(RequestMsgId(body).value, DecodePayload(body).value))
    else None
  }

  // =====================================================================
  // The log operations, as functions of the logs
  // =====================================================================

  /** `logs.entry(key).or_default()`: the key's log, or a fresh empty one. */
  function LogOf(logs: Logs, key: string): seq<u32> {
    if key in logs then logs[key] else []
  }

  /** The logs after `msg` is pushed onto `key`'s log (created empty first if missing). */
  function Appended(logs: Logs, key: string, msg: u32): (r: Logs)
    ensures r.Keys == logs.Keys + {key}
    ensures r[key] == LogOf(logs, key) + [msg]
    ensures |r[key]| == |LogOf(logs, key)| + 1 && r[key][|LogOf(logs, key)|] == msg
    ensures forall k | k in logs && k != key :: r[k] == logs[k]
  {
    logs[key := LogOf(logs, key) + [msg]]
  }

  /** `log.into_iter().enumerate().collect()`: each message paired with its offset. */
  function Enumerate(log: seq<u32>): (r: seq<Entry>)
    ensures |r| == |log|
    ensures forall i {:trigger r[i]} | 0 <= i < |log| :: r[i] == (i, log[i])
  {
    if log == [] then []
    else Enumerate(log[..|log| - 1]) + [(|log| - 1, log[|log| - 1])]
  }

  /** `log[offset..]` of the enumerated log: the messages from `offset` on, with their offsets. */
  function From(log: seq<u32>, offset: nat): (r: seq<Entry>)
    requires offset <= |log|
    ensures |r| == |log| - offset
    ensures forall j {:trigger r[j]} | 0 <= j < |r| :: r[j] == (offset + j, log[offset + j])
  {
    Enumerate(log)[offset..]
  }

  /** Slicing does not panic: every key both in the logs and in the request has an offset within its log. */
  predicate PollInRange(logs: Logs, offsets: map<string, u32>) {
    forall k | k in logs && k in offsets :: offsets[k] <= |logs[k]|
  }

  /**
   * The `msgs` of a poll: for every key both in the logs and in the request, the
   * messages from the requested offset on. An offset past the end of its log makes
   * the slice panic, and then there is no answer.
   */
  function PollLogs(logs: Logs, offsets: map<string, u32>): (r: Option<map<string, seq<Entry>>>)
    ensures r.Some? <==> PollInRange(logs, offsets)
    ensures r.Some? ==> r.value.Keys == logs.Keys * offsets.Keys
    ensures r.Some? ==> forall k | k in r.value ::
              && |r.value[k]| == |logs[k]| - offsets[k]
              && forall j | 0 <= j < |r.value[k]| :: r.value[k][j] == (offsets[k] + j, logs[k][offsets[k] + j])
  {
    if PollInRange(logs, offsets) then Some(map k | k in logs && k in offsets :: From(logs[k], offsets[k]))
    else None
  }

  /** The `offsets` of `list_committed_offsets`: the length of every requested log that exists. */
  function Lengths(logs: Logs, keys: set<string>): (r: map<string, nat>)
    ensures r.Keys == logs.Keys * keys
    ensures forall k | k in r :: r[k] == |logs[k]|
  {
    map k | k in logs && k in keys :: |logs[k]|
  }

  // =====================================================================
  // The replies
  // =====================================================================

  /** `json!({"offset": offset})`. */
  function SendReply(offset: nat): Json {
    Obj(map["offset" := Int(offset)])
  }

  /** A list of `(usize, u32)` pairs, each serialised as a two-element array. */
  function EntriesJson(entries: seq<Entry>): Json {
    Arr(seq(|entries|, i requires 0 <= i < |entries| => Arr([Int(entries[i].0), Int(entries[i].1)])))
  }

  /** `json!({"msgs": msgs})`. */
  function PollReply(msgs: map<string, seq<Entry>>): Json {
    Obj(map["msgs" := Obj(map k | k in msgs :: EntriesJson(msgs[k]))])
  }

  /** `json!({"offsets": offsets})`. */
  function ListReply(offsets: map<string, nat>): Json {
    Obj(map["offsets" := Obj(map k | k in offsets :: Int(offsets[k]))])
  }

  /** The reply to an accepted request whose decoding guarantees `reply_for` succeeds. */
  function Reply(message: Message, payload: Json): (r: Message)
    requires "msg_id" in message.body && FieldStr(message.body, "type").Some? && payload.Obj?
    ensures ReplyFor(message, payload) == Ok(r)
    ensures r.src == message.dest && r.dest == message.src
    ensures r.body["in_reply_to"] == message.body["msg_id"]
    ensures r.body["type"] == Str(message.body["type"].s + "_ok")
  {
    ReplyFor(message, payload).value
  }

  // =====================================================================
  // The handler
  // =====================================================================

  /** Every log of `before` is still there in `after`, with `before`'s messages as a prefix. */
  predicate Extends(before: Logs, after: Logs) {
    forall k | k in before :: k in after && before[k] <= after[k]
  }

  /** What one incoming message does to the logs: only an accepted `send` changes them. */
  function Step(logs: Logs, body: Object): (r: Logs)
    ensures Extends(logs, r)
  {
    match Decode(body)
    case Some(Request(_, Send(key, msg))) => Appended(logs, key, msg)
    case _ => logs
  }

  /** The logs after a run of messages, handled one after another. */
  function LogsAfter(logs: Logs, run: seq<Message>): Logs
    decreases |run|
  {
    if run == [] then logs else LogsAfter(Step(logs, run[0].body), run[1..])
  }

  /** How many messages of `run` are accepted `send`s to `key`. */
  function SendCount(run: seq<Message>, key: string): nat
    decreases |run|
  {
    if run == [] then 0
    else
      var here := match Decode(run[0].body)
                  case Some(Request(_, Send(k, _))) => if k == key then 1 else 0
                  case _ => 0;
      here + SendCount(run[1..], key)
  }

  /** `KafkaHandler`: the logs, by key. */
  class Handler {
    var logs: Logs

    /** `KafkaHandler::default()`: no logs. */
    constructor ()
      ensures logs == map[]
    {
      logs := map[];
    }

    /** The `send` branch: push `msg` onto `key`'s log and hand out the offset it landed at. */
    method Append(key: string, msg: u32) returns (offset: nat)
      modifies this
      ensures offset == |LogOf(old(logs), key)|
      ensures logs == Appended(old(logs), key, msg)
    {
      var log := if key in logs then logs[key] else [];
      offset := |log|;
      logs := logs[key := log + [msg]];
    }

    /**
     * `KafkaHandler::handle`. A message that does not decode is ignored. `send` appends
     * and answers with the offset; `poll` answers with the messages from each requested
     * offset on, or not at all when an offset is past its log's end; `commit_offsets` is
     * acknowledged and changes nothing; `list_committed_offsets` answers with the lengths.
     */
    method Handle(message: Message) returns (reply: Option<Message>)
      modifies this
      ensures logs == Step(old(logs), message.body)
      ensures Decode(message.body).None? ==> reply.None?
      ensures Decode(message.body).Some? ==>
                match Decode(message.body).value.payload
                case Send(key, _) => reply == Some(Reply(message, SendReply(|LogOf(old(logs), key)|)))
                case Poll(offsets) =>
                  reply == (if PollInRange(old(logs), offsets)
                            then Some(Reply(message, PollReply(PollLogs(old(logs), offsets).value)))
                            else None)
                case CommitOffsets(_) => reply == Some(Reply(message, Obj(map[])))
                case ListCommittedOffsets(keys) => reply == Some(Reply(message, ListReply(Lengths(old(logs), keys))))
    {
      var request := Decode(message.body);
      if request.None? {
        return None;
      }
      match request.value.payload
      case Send(key, msg) =>
        var offset := Append(key, msg);
        reply := Some(Reply(message, SendReply(offset)));
      case Poll(offsets) =>
        var msgs := PollLogs(logs, offsets);
        if msgs.None? {
          return None;
        }
        reply := Some(Reply(message, PollReply(msgs.value)));
      case CommitOffsets(_) =>
        reply := Some(Reply(message, Obj(map[])));
      case ListCommittedOffsets(keys) =>
        reply := Some(Reply(message, ListReply(Lengths(logs, keys))));
    }

    /** Handling a run of messages one at a time. */
    method HandleAll(run: seq<Message>) returns (replies: seq<Option<Message>>)
      modifies this
      ensures logs == LogsAfter(old(logs), run)
      ensures |replies| == |run|
    {
      replies := [];
      var i := 0;
      while i < |run|
        invariant 0 <= i <= |run| && |replies| == i
        invariant LogsAfter(old(logs), run) == LogsAfter(logs, run[i..])
      {
        assert run[i..][1..] == run[i + 1..];
        var reply := Handle(run[i]);
        replies := replies + [reply];
        i := i + 1;
      }
    }
  }

  // =====================================================================
  // Properties
  // =====================================================================

  /** A message just sent is what a poll from its offset returns, and nothing after it. */
  lemma SendThenPoll(logs: Logs, key: string, msg: u32)
    requires |LogOf(logs, key)| < U32_LIMIT
    ensures var offset := |LogOf(logs, key)|;
            PollLogs(Appended(logs, key, msg), map[key := offset]) == Some(map[key := [(offset, msg)]])
  {
    var offset := |LogOf(logs, key)|;
    var after := Appended(logs, key, msg);
    PollOneKey(after, key, offset);
    var tail := From(after[key], offset);
    assert |tail| == 1 && tail[0] == (offset, msg);
    assert tail == [(offset, msg)];
  }

  /** Polling a single key that has a log. */
  lemma PollOneKey(logs: Logs, key: string, offset: u32)
    requires key in logs && offset <= |logs[key]|
    ensures PollLogs(logs, map[key := offset]) == Some(map[key := From(logs[key], offset)])
  {
    var offsets := map[key := offset];
    var r := map k | k in logs && k in offsets :: From(logs[k], offsets[k]);
    assert PollLogs(logs, offsets) == Some(r) by {
      assert PollInRange(logs, offsets);
    }
    assert r == map[key := From(logs[key], offset)] by {
      assert r.Keys == {key};
    }
  }

  /** Polling every log from offset 0 returns each whole log, enumerated. */
  lemma PollFromStart(logs: Logs, offsets: map<string, u32>)
    requires forall k | k in offsets :: offsets[k] == 0
    ensures PollLogs(logs, offsets).Some?
    ensures forall k | k in logs && k in offsets :: PollLogs(logs, offsets).value[k] == Enumerate(logs[k])
  {
  }

  /**
   * The committed-offsets list is the next offset: a key with a log lists the offset
   * the next `send` to it will return, a key without one is left out (its next offset is 0),
   * and after that `send` the key lists one more.
   */
  lemma ListIsNextOffset(logs: Logs, keys: set<string>, key: string, msg: u32)
    requires key in keys
    ensures key in Lengths(logs, keys) <==> key in logs
    ensures key in logs ==> Lengths(logs, keys)[key] == |LogOf(logs, key)|
    ensures key !in logs ==> |LogOf(logs, key)| == 0
    ensures Lengths(Appended(logs, key, msg), keys)[key] == |LogOf(logs, key)| + 1
  {
  }

  /** Logs only grow: whatever a message does, every earlier log is a prefix of the later one. */
  lemma {:induction false} LogsAfterExtends(logs: Logs, run: seq<Message>)
    ensures Extends(logs, LogsAfter(logs, run))
    decreases |run|
  {
    if run != [] {
      var next := Step(logs, run[0].body);
      LogsAfterExtends(next, run[1..]);
    }
  }

  /** A key's log is as long as it was plus the number of accepted `send`s to it. */
  lemma {:induction false} LengthAfter(logs: Logs, run: seq<Message>, key: string)
    ensures |LogOf(LogsAfter(logs, run), key)| == |LogOf(logs, key)| + SendCount(run, key)
    decreases |run|
  {
    if run != [] {
      LengthAfter(Step(logs, run[0].body), run[1..], key);
    }
  }

  /** Polling again after more sends returns at least what the earlier poll did, as a prefix. */
  lemma PollGrows(before: Logs, after: Logs, offsets: map<string, u32>)
    requires Extends(before, after)
    requires PollInRange(before, offsets) && PollInRange(after, offsets)
    ensures forall k | k in PollLogs(before, offsets).value ::
              k in PollLogs(after, offsets).value && PollLogs(before, offsets).value[k] <= PollLogs(after, offsets).value[k]
  {
    var b := PollLogs(before, offsets).value;
    var a := PollLogs(after, offsets).value;
    forall k | k in b
      ensures k in a && b[k] <= a[k]
    {
      assert before[k] <= after[k];
    }
  }
}
