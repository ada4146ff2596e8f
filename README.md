# Maelstrom workload nodes, modelled in Dafny

The repository is a set of nodes for the Maelstrom distributed-systems workbench.
They talk JSON messages (`src`, `dest`, `body`) over standard input and output.
This project models the sequential cores behind them and proves what those cores promise:

- **Gossip-target selection** (`Topology`). It sorts a cluster topology's neighbour lists.
  It runs a depth-first search from the smallest node, which records a cycle whenever a
  neighbour is already on the current path. It prunes every cycle whose nodes all lie in
  another cycle. It then picks, for a node, its successor in each remaining cycle. The unit
  tests' graphs are worked out in `TopologyExamples`.
- **Identifiers** (`Ids`, `Id`, with `Decimal` for Rust's `u64` text form). Message ids
  are bare numbers. Node ids print as `n<k>` and client ids as `c<k>`; peer ids are either.
  Parsing after printing is the identity; printing after parsing is not.
- **The message envelope** (`Protocol`): `reply_for`, `request_to`, `in_reply_to` and the
  `Response` decoding.
- **The node runtime** (`Rpc`): the init handshake, the per-node message-id counter, the
  table of requests waiting for a reply, and the routing of incoming messages.
- **The broadcast handler** (`Broadcast`): the set of seen values, the gossip targets, the
  forward targets and the retry back-off.
- **The Kafka-style log handler** (`Kafka`): one append-only log of `u32` per key.
- **The single-process node** (`Dispatcher`): a state machine that is uninitialised and
  then initialised. It maps each request value to a reply value.
- **Unique ids** (`UniqueIds`, with `Bits` for `<<` and `|` on naturals): an id is
  `node_id << 32 | counter`.

Each handler invocation is one atomic step of a Dafny method. State the source keeps behind
locks and atomics is a class field: the log map, the seen-values set, the counters and the
waiter table.

A few points where the model follows the code:

- **Struct tags are not read back.** Several request structs carry `#[serde(tag = ...,
  rename = ...)]`: `TopologyRequest`, `BroadcastRequest`, `ReadRequest`, `InitRequest`,
  `ErrorResponse` and `GenerateRequest`. On a struct, serde writes that tag when
  serialising. Deserialising does not check it, and ignores it like any other field the
  struct does not declare. So each decoder here only asks for the struct's own fields and a
  `u64` `msg_id`.
  - The broadcast handler's `read` branch therefore catches every request that is neither
    a topology nor a broadcast.
  - The `GenerateRequest` attribute, whose tag and rename look swapped, has no effect on
    which requests are accepted. A reading in which the tag field `generate` must equal
    `"type"` does not match serde's behaviour, so it is not modelled.
  - Enums with `tag = "type"` do check the tag: the Kafka `Request` and the `Value` of
    `src/main.rs`.
- **A reply that cannot be built is a panic.** A request that decodes but has no string
  `type` makes `reply_for` fail, and the handler's `expect` panics its task. The model gives
  no reply there (`Protocol.ReplyOrPanic`). It keeps any state change made before the reply.
  In the broadcast handler, a new value is stored and then not forwarded.
- **Kafka `poll` and offsets past the end.** A `poll` whose offset is past the end of its
  log panics at the slice. It gets no reply.

## Model

| member | source | states |
|---|---|---|
| Topology.Sort | src/topology.rs:11-13 | the result is in ascending node order and is a permutation of the input (same multiset) |
| Topology.SortedUnique | src/topology.rs:11-13 | two ascending arrangements of one multiset are equal, so the sorted lists do not depend on the sorting algorithm |
| Topology.SortLists | src/topology.rs:8-16 | the key set is kept and every list is replaced by its sorted arrangement |
| Topology.From | src/topology.rs:8-16 | `from` keeps the key set; every list comes out ascending with the same elements |
| Topology.FromKeepsSorted | src/topology.rs:8-16 | on a topology whose lists are already sorted, `from` changes nothing |
| Topology.IndexOf | src/topology.rs:35 | `position` gives the first index holding the element |
| Topology.Expand | src/topology.rs:32-42 | scanning a frame's neighbours pushes at most one frame per neighbour, each extending the path by an off-path neighbour; each recorded cycle is a suffix of the path starting at a neighbour |
| Topology.ExpandDecreasesWeight | src/topology.rs:29-43 | expanding a frame strictly lowers the stack's weight (each frame weighs B^(N - path length)), so the search terminates although a node can be pushed several times |
| Topology.DfsFindsCycles | src/topology.rs:29-43 | every cycle the search records has distinct nodes, each followed by a neighbour and the last by the first |
| Topology.SearchFindsCycles | src/topology.rs:22-43 | the cycles found from the smallest key are cycles of the graph |
| Topology.SmallestKey | src/topology.rs:24-28 | the node chosen to start from is a key no larger than any other key |
| Topology.MinKey | src/topology.rs:24-28 | the smallest key exists for a non-empty topology and is at most every key |
| Topology.ScanNeighbors | src/topology.rs:32-42 | the `for` loop over one popped frame pushes exactly the frames and cycles of `Expand`, in order |
| Topology.FindCycles | src/topology.rs:22-43 | the `while let` search loop records exactly the cycles of the search from the start node |
| Topology.ContainsCycle | src/topology.rs:104-114 | `contains_cycle` is true iff every element of the slice occurs in the container |
| Topology.ContainsAllIgnoresOrder | src/topology.rs:122-142 | containment depends only on the two element sets, so windows, reversed windows and wrapped windows behave alike |
| Topology.Without | src/topology.rs:51 | `retain` removes every copy of the cycle and keeps every other cycle |
| Topology.Prune | src/topology.rs:45-53 | the pruning loop, with the `any` search over `contains_cycle`, yields the pruned list |
| Topology.PrunedKeeps | src/topology.rs:45-53 | pruning only removes cycles |
| Topology.PrunedMaximal | src/topology.rs:45-53 | after pruning, no remaining cycle has all its nodes in a different remaining cycle |
| Topology.PrunedCovers | src/topology.rs:45-53 | every cycle found lies inside some remaining cycle, so pruning loses no node set |
| Topology.PrunedEmpty | src/topology.rs:45-55 | the pruned list is empty exactly when the search found no cycle |
| Topology.SuccessorWraps | src/topology.rs:62-86 | the three-case closure picks the element after the node, the last wrapping to the first; a 1-cycle or a cycle without the node gives nothing |
| Topology.SuccessorsMembers | src/topology.rs:59-87 | an id is in the `flat_map` iff it is the node's successor in one of the cycles |
| Topology.DedupFirstOccurrences | src/topology.rs:88-93 | the `fold` keeps each distinct id exactly once, ordered by first occurrence |
| Topology.DedupDistinct | src/topology.rs:88-93 | the `fold` leaves a list without repeats unchanged |
| Topology.Next | src/topology.rs:20-95 | `next` equals the specification: search, prune, then select or fall back |
| Topology.NextOnEmpty | src/topology.rs:26-28 | an empty topology gives no targets |
| Topology.NextWithoutCycles | src/topology.rs:55-57 | with no cycle, `next(n)` is `n`'s neighbour list, and empty when `n` has no entry |
| Topology.NextWithoutCyclesSorted | src/topology.rs:8-57 | on a topology built by `from`, that fallback list is ascending |
| Topology.NextWithCycles | src/topology.rs:59-93 | with cycles, `x` is in `next(n)` iff `x` is `n`'s successor in a remaining cycle of length two or more that contains `n` |
| Topology.SuccessorOfCycle | src/topology.rs:62-86 | a successor taken from a cycle of the graph is a neighbour of the node and never the node itself |
| Topology.NextWithCyclesTargets | src/topology.rs:59-93 | with cycles, `next(n)` has no repeats, only neighbours of `n`, and never `n` |
| Topology.NextTargetsNeighbors | src/topology.rs:20-99 | on every branch, `next(n)` names only neighbours of `n` |
| TopologyExamples.NoNeighbors | src/topology.rs:150-161 | on 1→2, `next(1) = [2]` and `next(2) = []` |
| TopologyExamples.OneNeighbor | src/topology.rs:163-175 | on 1↔2, `next(1) = [2]` and `next(2) = [1]` |
| TopologyExamples.TwoNeighbors | src/topology.rs:177-196 | the exact targets the test asserts for every node of the 2x2 grid |
| TopologyExamples.TwoNeighbors2 | src/topology.rs:197-218 | the exact targets for every node of the 2x2 grid 0,1,3,4 with node 2 hanging off node 1 |
| TopologyExamples.ThreeNeighbors | src/topology.rs:219-242 | the exact targets for every node of the 2x3 grid |
| TopologyExamples.FourNeighbors | src/topology.rs:243-274 | the exact targets for every node of the 3x3 grid |
| Decimal.Display | src/ids.rs:45-49 | the decimal text is non-empty, all digits, and has no leading zero |
| Decimal.ParseU64 | src/ids.rs:67 | `parse::<u64>` succeeds iff the text after an optional `+` is one or more digits whose value fits in a `u64`, and returns that value; an empty string is the `Empty` error |
| Decimal.AccumulateReads | src/ids.rs:67 | the left-to-right digit loop fails exactly on a non-digit or on a value past `u64::MAX` |
| Decimal.ParseDisplay | src/ids.rs:45-73 | parsing the printed form of any `u64` gives it back |
| Decimal.DisplayParseNotIdentity | src/ids.rs:67 | `"007"` and `"+7"` parse to 7, which prints as `"7"` |
| Decimal.ParseRejects | src/ids.rs:67 | the empty string, a lone `+` and `-1` are rejected |
| Decimal.ParseRejectsOverflow | src/ids.rs:67 | every numeral above `u64::MAX` is rejected |
| Ids.MessageIdFrom | src/ids.rs:6-10 | the message id wraps the given number |
| Ids.NodeIdToU64 | src/ids.rs:39-43 | the number converts back to the same node id |
| Ids.PeerFromNode | src/ids.rs:114-118 | a node id becomes the node peer for that id |
| Ids.NodeLeTotalOrder | src/ids.rs:36-37 | the derived order on node ids is total, antisymmetric and transitive |
| Ids.SerializeMessageId | src/ids.rs:18-25 | a message id is the bare JSON number |
| Ids.DeserializeMessageId | src/ids.rs:27-34 | any JSON integer in `u64` range is accepted, and nothing else |
| Ids.MessageIdRoundTrip | src/ids.rs:18-34 | deserialising the serialised message id gives it back |
| Ids.StripPrefix | src/ids.rs:66 | `strip_prefix` succeeds iff the string starts with the character, and returns the rest |
| Ids.ParseNumber | src/ids.rs:67 | the suffix parses exactly when `parse::<u64>` accepts it, and to the same value |
| Ids.ParseNodeId | src/ids.rs:60-73 | accepted iff the text is `n` followed by a valid `u64`; without the `n` prefix it fails with "NodeId must start with 'n'" |
| Ids.DeserializeNodeId | src/ids.rs:60-73 | a JSON string is parsed as a node id; any other JSON value is refused |
| Ids.ParseClientId | src/ids.rs:93-106 | accepted iff the text is `c` followed by a valid `u64`; without the `c` prefix it fails with "ClientId must start with 'c'" |
| Ids.DeserializeClientId | src/ids.rs:93-106 | a JSON string is parsed as a client id; any other JSON value is refused |
| Ids.ParsePeerId | src/ids.rs:138-154 | `n…` parses as a node and `c…` as a client, exactly when the node or client parser accepts; anything else fails with "Unknown id type" |
| Ids.DeserializePeerId | src/ids.rs:138-154 | a JSON string is parsed as a peer id; any other JSON value is refused |
| Ids.NodeIdRoundTrip | src/ids.rs:45-73 | deserialising the serialised node id gives it back |
| Ids.ClientIdRoundTrip | src/ids.rs:78-106 | deserialising the serialised client id gives it back |
| Ids.PeerIdRoundTrip | src/ids.rs:120-154 | deserialising the serialised peer id gives it back, with its kind |
| Ids.PeerKindsDisjoint | src/ids.rs:138-154 | no text parses both as a node id and as a client id |
| Id.MessageCounter.constructor | src/id.rs:5 | the process-wide counter starts at 0 |
| Id.MessageCounter.Next | src/id.rs:34-37 | `next` returns the current value and moves the counter on by one, wrapping at 2^64 |
| Id.MessageCounter.Draw | src/id.rs:34-38 | `k` calls of `next` hand out the start value plus 0, 1, ..., k-1 modulo 2^64; fewer than 2^64 calls never repeat an id, and the ids strictly increase while the counter does not wrap |
| Common.DrawnDistinct | src/id.rs:34-38 | fewer than 2^64 successive values of a wrapping counter are pairwise distinct |
| Common.DrawnIncreasing | maelstrom-node/src/lib.rs:181-183 | successive values of a counter that does not wrap strictly increase |
| Id.ParseNodeId | src/id.rs:58-70 | without a leading `n` it fails with "NodeId must start with 'n'" |
| Id.ParseClientId | src/id.rs:90-102 | without a leading `c` it fails with "ClientId must start with 'c'" |
| Id.ParsePeerId | src/id.rs:128-146 | with neither prefix it fails with "PeerId must start with 'n' or 'c'" |
| Id.ParsersAgree | src/id.rs:58-146 | this module's `starts_with` parsers decode every string exactly as the `strip_prefix` parsers of `src/ids.rs` do; only the peer parser's error message differs |
| Id.NodeIdRoundTrip | src/id.rs:43-70 | parsing the display of a node id gives it back |
| Id.ClientIdRoundTrip | src/id.rs:75-102 | parsing the display of a client id gives it back |
| Id.PeerIdRoundTrip | src/id.rs:110-146 | parsing the display of a peer id gives it back |
| Json.AsU64 | maelstrom-node/src/protocol.rs:21-22 | `as_u64` is defined exactly on JSON integers in `u64` range |
| Protocol.InReplyTo | maelstrom-node/src/protocol.rs:20-26 | `in_reply_to()` is `Some(n)` iff the body's `in_reply_to` is an integer `n` in `u64` range |
| Protocol.DecodeResponse | maelstrom-node/src/protocol.rs:90-95 | a body decodes as `Response` iff it has a `u64` `in_reply_to`; the payload is the rest of the body |
| Protocol.InReplyToIsResponseId | maelstrom-node/src/protocol.rs:20-26 | `in_reply_to()` and `Response` decoding read the same id |
| Protocol.RequestTo | maelstrom-node/src/protocol.rs:32-48 | the request goes from the node to `dest`; its body is `msg_id` beside the payload's fields, and fails for a payload that cannot be flattened |
| Protocol.ReplyFor | maelstrom-node/src/protocol.rs:50-80 | the four error exits in order; on success it swaps `src`/`dest`, sets `in_reply_to` to the request's `msg_id` and `type` to the request's type plus `_ok`, and keeps every other payload field |
| Protocol.ReplyOrPanic | maelstrom-node/src/protocol.rs:50-80 | a reply exists iff the request has a `msg_id` and a string `type` and the payload is an object |
| Protocol.ReplyAnswersRequest | maelstrom-node/src/protocol.rs:32-80 | the reply to a request built by `request_to` goes back to the requesting node and decodes as a `Response` to the same message id |
| Rpc.DecodeError | maelstrom-node/src/lib.rs:78-83 | a payload decodes as `ErrorResponse` iff it has a `code` and a string `text` |
| Rpc.SendOutcome | maelstrom-node/src/lib.rs:193-197 | `send` yields the error when the reply decodes as an error body, and the reply payload otherwise |
| Rpc.DecodeInit | maelstrom-node/src/lib.rs:116-121 | a body is an init request iff it has a `u64` `msg_id` and a `node_id` that parses as a node id |
| Rpc.Initialize | maelstrom-node/src/lib.rs:108-129 | every message before the first init request is skipped; that request is answered with `<type>_ok` to its sender and names the node's id, or its reply cannot be built and the `expect` stops; with no init request it keeps waiting |
| Rpc.Node.constructor | maelstrom-node/src/lib.rs:131-138 | a new node has counter 0 and an empty waiter table |
| Rpc.Node.Send | maelstrom-node/src/lib.rs:176-204 | `send` takes the counter's value as `msg_id`, bumps the counter (wrapping at 2^64), yields the request `request_to` builds with that id or its error, and registers exactly that waiter when the request can be built |
| Rpc.Node.SendEach | maelstrom-node/src/lib.rs:176-204 | `send` once per payload leaves the results and the waiter table of the reference run `SendRun`, the `i`-th drawing the counter's value plus `i` |
| Rpc.Node.SendAll | maelstrom-node/src/lib.rs:176-204 | over any run of sends, the `i`-th uses the id the counter held plus `i` (modulo 2^64) and yields exactly the request built with it; the waiters gain exactly the ids whose request was built; fewer than 2^64 sends never reuse an id, and the ids strictly increase while the counter does not wrap |
| Rpc.SendRunResults | maelstrom-node/src/lib.rs:181-185 | in a run of sends, the `i`-th outcome is the send of the `i`-th payload with the `i`-th id drawn |
| Rpc.SendRunTable | maelstrom-node/src/lib.rs:200-204 | a run of sends adds exactly the registered ids to the waiters and clears their stale replies |
| Rpc.SendRunSpec | maelstrom-node/src/lib.rs:176-204 | a run of `send`s yields, at each position, the request built with that position's id, and registers exactly those ids |
| Rpc.RegisteredMembers | maelstrom-node/src/lib.rs:185-203 | an id is registered by a run exactly when one of its sends drew it and built its request |
| Rpc.Node.Listen | maelstrom-node/src/lib.rs:145-158 | a `Response` whose id is waited for removes exactly that waiter and is delivered; one nobody waits for is dropped and changes nothing; a non-response goes to the handler and leaves the table alone |
| Rpc.Node.TakeReply | maelstrom-node/src/lib.rs:191-212 | once the reply has arrived, the waiter is removed and the reply is split into error or result; before that nothing changes |
| Rpc.Node.ListenAll | maelstrom-node/src/lib.rs:140-161 | over a run, the routings and the table are those of the reference fold `ListenRun`: exactly the non-responses go to the handler; the waiters lose exactly the ids the run's replies answer; an id is delivered iff it was waited for and answered, at most once, and its waiter receives that reply |
| Rpc.AnsweredIdsMembers | maelstrom-node/src/lib.rs:146 | an id is answered by a run iff one of its messages decodes as a `Response` to it |
| Rpc.ListenRunWaiting | maelstrom-node/src/lib.rs:145-152 | after a run, the waiters are the earlier ones minus every id the run answers |
| Rpc.ListenRunDelivered | maelstrom-node/src/lib.rs:146-152 | an id is delivered in a run iff it was waited for and some reply answers it |
| Rpc.ListenRunHandler | maelstrom-node/src/lib.rs:146-158 | a message goes to the handler iff it does not decode as a `Response` |
| Rpc.ListenRunArrivedKeys | maelstrom-node/src/lib.rs:147-149 | the replies handed over are the earlier ones plus one per waiter the run answers |
| Rpc.ListenRunArrived | maelstrom-node/src/lib.rs:146-149 | a delivered message is a `Response`, and its waiter holds exactly that reply |
| Rpc.ListenRunOnce | maelstrom-node/src/lib.rs:147 | `remove` delivers each id at most once in a run |
| Rpc.ReplyResolvesOnce | maelstrom-node/src/lib.rs:146-152 | the first reply to a waiting request is delivered; an identical second reply is dropped |
| Broadcast.DecodeNodeList | broadcast-node/src/main.rs:26 | a JSON array decodes iff every element is a node id, into those ids in order |
| Broadcast.DecodeGraph | broadcast-node/src/main.rs:23-27 | a topology object decodes iff every key and list decodes and no two keys name the same node; each key's node maps to its list |
| Broadcast.GraphOf | broadcast-node/src/main.rs:26 | the decoded map holds each key's node with its list, and no other node |
| Broadcast.DecodeTopology | broadcast-node/src/main.rs:23-27 | a body is a topology request iff it has a `u64` `msg_id` and a `topology` object that decodes |
| Broadcast.DecodeBroadcast | broadcast-node/src/main.rs:29-33 | a body is a broadcast request iff it has a `u64` `msg_id` and a `u64` `message` |
| Broadcast.DecodeRead | broadcast-node/src/main.rs:39-41 | a body is a read request iff it has a `u64` `msg_id` |
| Broadcast.ReadCatchesAllRequests | broadcast-node/src/main.rs:45-131 | only a body without a `u64` `msg_id` falls through to the ignoring branch |
| Broadcast.ForwardDecodes | broadcast-node/src/main.rs:94-99 | a forwarded value reaches its target as a broadcast request for that value (and not as a topology request) |
| Broadcast.Skip | broadcast-node/src/main.rs:80-83 | the filter keeps exactly the elements other than the sender, shortened by the sender's count |
| Broadcast.SkipIsSubsequence | broadcast-node/src/main.rs:78-83 | the filter keeps the order: its result embeds into the input at increasing positions |
| Broadcast.SkipDistinct | broadcast-node/src/main.rs:78-83 | a target list without repeats stays without repeats |
| Broadcast.Targets | broadcast-node/src/main.rs:73-86 | the forward targets are the gossip targets other than the sender when it is a node, and all of them when it is a client |
| Broadcast.Grow | broadcast-node/src/main.rs:104 | the next timeout is exactly `t + t / 2` when that fits in a `u64` and `u64::MAX` when it does not; it never shrinks, and grows strictly from 2 up to the maximum |
| Broadcast.BackoffStart | broadcast-node/src/main.rs:92-109 | the first attempts wait 100, 150, 225 and 337 ms |
| Broadcast.BackoffGrows | broadcast-node/src/main.rs:92-111 | timeouts never drop below 100 ms and grow strictly until they saturate |
| Broadcast.Retry | broadcast-node/src/main.rs:92-114 | attempt `i` waits `Backoff(i)`; the loop stops at the first acknowledgement and keeps retrying without one |
| Broadcast.BroadcastValuesMembers | broadcast-node/src/main.rs:53-71 | a value is among a run's broadcast values iff one of its messages takes the broadcast branch with that value |
| Broadcast.ListValues | broadcast-node/src/main.rs:125-126 | the read reply lists every seen value exactly once |
| Broadcast.Handler.constructor | broadcast-node/src/main.rs:17-21 | the handler starts with no values and no targets |
| Broadcast.Handler.Handle | broadcast-node/src/main.rs:44-132 | per branch: a topology sets the targets to `next` of the sorted topology; a known value is only acknowledged; a new value is stored, acknowledged and forwarded to the targets but the sender; a read returns all values; a body without `msg_id` changes nothing; a reply exists iff `type` is a string |
| Broadcast.Handler.HandleTopology | broadcast-node/src/main.rs:45-52 | the targets become `next(node.id)` of the sorted topology; the values are unchanged |
| Broadcast.Handler.HandleBroadcast | broadcast-node/src/main.rs:53-120 | the value is added; a new value is forwarded only after its acknowledgement is out |
| Broadcast.Handler.HandleRead | broadcast-node/src/main.rs:121-128 | the reply lists exactly the seen values |
| Broadcast.Handler.HandleAll | broadcast-node/src/main.rs:44-132 | over a run, the seen values grow by exactly the values broadcast in it, and the gossip targets are `TargetsAfter` of the run |
| Broadcast.TargetsAfterLastTopology | broadcast-node/src/main.rs:45-52 | the targets after a run are `next(node.id)` of the sorted topology of its last topology request, whatever came before |
| Broadcast.TargetsAfterNoTopology | broadcast-node/src/main.rs:45-52 | a run without a topology request leaves the targets unchanged |
| Broadcast.RunStep | broadcast-node/src/main.rs:44-70 | one more message adds its broadcast value, and replaces the targets exactly when it is a topology request |
| Kafka.DecodeOffsets | kafka-node/src/main.rs:20-21 | an offsets object decodes iff every value is a `u32`, keeping every key |
| Kafka.DecodeKeys | kafka-node/src/main.rs:22 | a keys array decodes iff every item is a string; the set holds exactly those strings |
| Kafka.DecodePayload | kafka-node/src/main.rs:16-23 | each variant is chosen by its snake-case `type` tag and decodes iff its fields do |
| Kafka.Decode | kafka-node/src/main.rs:27-29 | a body is a request iff it has a `u64` `msg_id` and a payload that decodes |
| Kafka.Appended | kafka-node/src/main.rs:33-36 | a send pushes onto the key's log, created empty if missing; every other key's log is unchanged |
| Kafka.Enumerate | kafka-node/src/main.rs:48 | each message is paired with its offset |
| Kafka.From | kafka-node/src/main.rs:48-49 | the slice from an offset holds every later message with its offset, in order |
| Kafka.PollLogs | kafka-node/src/main.rs:41-53 | a poll answers iff no offset is past its log's end; it covers exactly the keys with both a log and an offset, each sliced from its offset |
| Kafka.Lengths | kafka-node/src/main.rs:64-76 | the listed offsets are the lengths of exactly the requested keys that have a log |
| Kafka.Reply | kafka-node/src/main.rs:37-39 | the reply `reply_for` builds for an accepted request, from `dest` back to `src`, answering its `msg_id` with `<type>_ok` |
| Kafka.Step | kafka-node/src/main.rs:26-83 | whatever the message, every earlier log is a prefix of the later one |
| Kafka.Handler.constructor | kafka-node/src/main.rs:11-14 | the handler starts with no logs |
| Kafka.Handler.Append | kafka-node/src/main.rs:32-36 | the returned offset is the key's log length before the push |
| Kafka.Handler.Handle | kafka-node/src/main.rs:26-83 | per request: send replies with its offset; poll replies with the slices or not at all; commit replies and changes nothing; list replies with the lengths; a non-request is ignored |
| Kafka.Handler.HandleAll | kafka-node/src/main.rs:26-83 | a run of messages leaves the logs its sends produce |
| Kafka.SendThenPoll | kafka-node/src/main.rs:32-50 | polling a key from the offset a send returned gives exactly that message |
| Kafka.PollOneKey | kafka-node/src/main.rs:44-53 | polling one key that has a log gives its slice from the offset |
| Kafka.PollFromStart | kafka-node/src/main.rs:44-53 | polling from offset 0 gives each whole log, enumerated |
| Kafka.ListIsNextOffset | kafka-node/src/main.rs:32-76 | a listed length is the offset the next send to that key returns, and goes up by one after it |
| Kafka.LogsAfterExtends | kafka-node/src/main.rs:32-36 | logs only grow: each log before a run is a prefix of the one after |
| Kafka.LengthAfter | kafka-node/src/main.rs:32-36 | a key's log grows by exactly the number of sends to it |
| Kafka.PollGrows | kafka-node/src/main.rs:41-53 | polling after more sends returns the earlier answer as a prefix of each list |
| Bits.Shl | unique-ids-node/src/main.rs:33 | `x << k` on a `width`-bit integer stays below 2^width |
| Bits.OrBound | unique-ids-node/src/main.rs:33 | the `|` of two `k`-bit numbers is a `k`-bit number |
| Bits.OrDisjoint | unique-ids-node/src/main.rs:33 | `(a << k) | b` is `a * 2^k + b` when `b < 2^k` |
| UniqueIds.IdIsSum | unique-ids-node/src/main.rs:32-33 | below 2^32, the id is `node * 2^32 + counter` |
| UniqueIds.IdSplits | unique-ids-node/src/main.rs:32-33 | below 2^32, node and counter are read back from the id |
| UniqueIds.IdsDistinct | unique-ids-node/src/main.rs:32-33 | for node ids and counters below 2^32, two ids are equal iff their pairs are |
| UniqueIds.CounterOverflowCollides | unique-ids-node/src/main.rs:30-33 | past 2^32 requests node 0's ids reach node 1's |
| UniqueIds.WideNodeCollides | unique-ids-node/src/main.rs:33 | a node id of 2^32 loses its high bits and reuses node 0's ids |
| UniqueIds.DecodeGenerate | unique-ids-node/src/main.rs:15-28 | a message is accepted iff its body has a `u64` `msg_id` |
| UniqueIds.OnlyMsgIdDecides | unique-ids-node/src/main.rs:15-17 | no field but `msg_id` (not `type`, not `generate`) changes whether a body is accepted |
| UniqueIds.WrappingInc | unique-ids-node/src/main.rs:30 | `fetch_add(1)` moves the counter on by one modulo 2^64 |
| UniqueIds.Accepted | unique-ids-node/src/main.rs:26-30 | the number of accepted messages of a run is at most its length |
| UniqueIds.Handler.constructor | unique-ids-node/src/main.rs:10-13 | the counter starts at 0 |
| UniqueIds.Handler.Handle | unique-ids-node/src/main.rs:19-38 | a message not accepted changes nothing and gets no reply; otherwise the counter's old value is taken even if the reply then panics, and the reply's `id` is `node << 32 | counter` |
| UniqueIds.Handler.HandleAll | unique-ids-node/src/main.rs:26-37 | over a run within 2^32 counter values on a node below 2^32, no two replies carry the same id |
| UniqueIds.CounterAfterCounts | unique-ids-node/src/main.rs:30 | a run moves the counter on by its number of accepted messages, modulo 2^64 |
| Dispatcher.ReplyTo | src/main.rs:195-203 | the reply goes back to the sender, answers its `msg_id`, comes from the node or from node 0 before `init`, and carries the given message id and value |
| Dispatcher.Node.constructor | src/main.rs:117-123 | a new node has the given id, counter 0 and no stored values |
| Dispatcher.Node.GenerateId | src/main.rs:125-130 | the id is `node << 32 | count` with the counter's old value; the counter moves on by one |
| Dispatcher.Node.StoreMessage | src/main.rs:132-137 | the value is added to the stored set |
| Dispatcher.Node.ReadMessages | src/main.rs:139-146 | the list holds every stored value exactly once |
| Dispatcher.Process.constructor | src/main.rs:150 | the loop starts without a node, and message ids start at 0 |
| Dispatcher.Process.Step | src/main.rs:166-203 | before `init`, only `Init` is accepted and creates the node, and the rest gets `PreconditionFailed`; afterwards each value maps to its reply (a second `Init` gets `NotSupported`) with the node changed only by `Generate` and `Broadcast`; every reply answers the sender's `msg_id` |

## Left out

- Standard input and output, the logger, every `main`, and the tokio machinery are left out. That machinery is tasks, `RwLock`, channels, `join_all` and `time::timeout`. Each handler call is one atomic step, so races between tasks are not modelled.
- Examples of such races: a reply that arrives before its waiter is registered, and two tasks both inserting the same broadcast value.
- Broadcast.Grow: models `(t as f64 * 1.5) as u64` as `t + t / 2`, saturating at `u64::MAX`. This is exact while `t + t / 2` is below 2^53; above that, floating-point rounding is not modelled. Wall-clock time is abstracted into the outcome of each attempt.
- Broadcast.Retry: runs over a finite sequence of attempt outcomes; a forward that is never acknowledged is cut off at the end of that sequence.
- Broadcast.DecodeGraph: a topology object with two keys that name the same node (`n1` and `n01`) is treated as not decoding. The JSON object is an unordered map here, so which of the two entries serde would keep is not determined.
- Hash-set and hash-map iteration order is not modelled. The read replies promise each value once, in some order.
- Rpc.DecodeError: `ErrorCode` is an untagged enum, and which JSON values serde accepts for it is not modelled; any `code` is taken. The codes' numeric values are not modelled either.
- Decoding through serde is written out as explicit decoders on a JSON datatype in which an object is a map from keys to values. JSON numbers are integers or other numbers, with no floating-point detail.
- A request to the single-process node that fails to parse panics its `main` loop with "JSON parse error". The model starts from the parsed `Message`.
- `Value` and `ErrorCode` in `src/main.rs` are datatypes; their serde representations are not modelled.
- Kafka: a `poll` whose offset is past the end of its log panics the handling task. It is modelled as no reply, with the logs unchanged.
- Handlers whose reply cannot be built are modelled as sending no reply (see `Protocol.ReplyOrPanic`).
- The unique-id handler is written against a library API with three-argument `handle`, `wait_for_init` and an output channel. That API is not part of this model, so the handler takes the node id and returns its reply.
- Message ids are modelled as `u64`. The `usize` process-wide counter of `src/id.rs` is taken to be 64 bits wide, and `fetch_add` wraps at 2^64.
- `kv/src/lib.rs`, `g-counter-node/src/main.rs` and `echo-node/src/main.rs` are not part of this model. They wrap an external key-value service or a single `reply_for` call, through library functions that are not shown.
- `src/protocol.rs` holds only type declarations. Its shapes appear as the `Dispatcher` datatypes.
- The `MessageId` of `src/id.rs` prints, serialises and deserialises as the one of `src/ids.rs` does, so both share `Ids.MessageId` and its codec.
- The `Display` of message ids (`Ids.DisplayMessageId`) is plain decimal text and has no contract of its own beyond `Decimal.Display`.
