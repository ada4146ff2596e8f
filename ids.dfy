/**
 * Identifiers of the Maelstrom node library: message ids (bare `u64`), node ids
 * written `n<k>`, client ids written `c<k>`, and peer ids, which are either.
 * Text forms go through `Decimal`; JSON forms are strings, except for message ids,
 * which are numbers.
 */
module Ids {
  import opened Common
  import opened Json
  import Decimal

  datatype MessageId = MessageId(n: u64)
  datatype NodeId = NodeId(n: u64)
  datatype ClientId = ClientId(n: u64)
  datatype PeerId = Node(node: NodeId) | Client(client: ClientId)

  /** Why a deserialisation failed: a custom message, a bad number, or a JSON value of the wrong kind. */
  datatype IdError = Custom(text: string) | BadNumber(kind: Decimal.IntErrorKind) | InvalidType

  const NODE_PREFIX_ERROR := "NodeId must start with 'n'"
  const CLIENT_PREFIX_ERROR := "ClientId must start with 'c'"
  const UNKNOWN_PEER_ERROR := "Unknown id type"

  // ---- conversions -------------------------------------------------------

  /** `From<u64> for MessageId`. */
  function MessageIdFrom(n: u64): (m: MessageId)
    ensures m.n == n
  {
    MessageId(n)
  }

  /** `From<NodeId> for u64`. */
  function NodeIdToU64(id: NodeId): (n: u64)
    ensures NodeId(n) == id
  {
    id.n
  }

  /** `From<NodeId> for PeerId`. */
  function PeerFromNode(id: NodeId): (p: PeerId)
    ensures p.Node? && p.node == id
  {
    Node(id)
  }

  // ---- ordering ----------------------------------------------------------

  /** The derived `Ord` of `NodeId`: the numeric order of the wrapped `u64`. */
  predicate NodeLe(a: NodeId, b: NodeId) {
    a.n <= b.n
  }

  /** `NodeLe` is a total order, so sorting node ids has exactly one result. */
  lemma NodeLeTotalOrder(a: NodeId, b: NodeId, c: NodeId)
    ensures NodeLe(a, a)
    ensures NodeLe(a, b) || NodeLe(b, a)
    ensures NodeLe(a, b) && NodeLe(b, a) ==> a == b
    ensures NodeLe(a, b) && NodeLe(b, c) ==> NodeLe(a, c)
  {
  }

  // ---- message ids -------------------------------------------------------

  /** `Display for MessageId`. */
  function DisplayMessageId(m: MessageId): string {
    Decimal.Display(m.n)
  }

  /** `Serialize for MessageId`: the bare number. */
  function SerializeMessageId(m: MessageId): (j: Json)
    ensures j.Int? && j.i == m.n
  {
    Int(m.n)
  }

  /** `Deserialize for MessageId`: any JSON integer that fits in a `u64`. */
  function DeserializeMessageId(j: Json): (r: Result<MessageId, IdError>)
    ensures r.Ok? <==> AsU64(j).Some?
    ensures r.Ok? ==> j == Int(r.value.n)
  {
    match AsU64(j)
    case Some(n) => Ok(MessageId(n))
    case None => Err(InvalidType)
  }

  lemma MessageIdRoundTrip(m: MessageId)
    ensures DeserializeMessageId(SerializeMessageId(m)) == Ok(m)
  {
  }

  // ---- node ids ----------------------------------------------------------

  /** `Display for NodeId`: `n` followed by the decimal number. */
  function DisplayNodeId(id: NodeId): string {
    "n" + Decimal.Display(id.n)
  }

  /** `strip_prefix(c)`: the rest of `s` when it starts with `c`. */
  function StripPrefix(s: string, c: char): (r: Option<string>)
    ensures r.Some? <==> |s| > 0 && s[0] == c
    ensures r.Some? ==> s == [c] + r.value
  {
    if |s| > 0 && s[0] == c then Some(s[1..]) else None
  }

  /** The number after the prefix, with `parse`'s error mapped into an `IdError`. */
  function ParseNumber(s: string): (r: Result<u64, IdError>)
    ensures r.Ok? <==> Decimal.ParseU64(s).Ok?
    ensures r.Ok? ==> r.value == Decimal.ParseU64(s).value
  {
    match Decimal.ParseU64(s)
    case Ok(n) => Ok(n)
    case Err(kind) => Err(BadNumber(kind))
  }

  /** The string part of `Deserialize for NodeId`. */
  function ParseNodeId(s: string): (r: Result<NodeId, IdError>)
    ensures r.Ok? <==> |s| > 0 && s[0] == 'n' && Decimal.ParseU64(s[1..]).Ok?
    ensures r.Ok? ==> r.value.n == Decimal.ParseU64(s[1..]).value
    ensures (|s| == 0 || s[0] != 'n') ==> r == Err(Custom(NODE_PREFIX_ERROR))
  {
    match StripPrefix(s, 'n')
    case Some(rest) =>
      var n :- ParseNumber(rest);
      Ok(NodeId(n))
    case None => Err(Custom(NODE_PREFIX_ERROR))
  }

  /** `Serialize for NodeId`: its display string. */
  function SerializeNodeId(id: NodeId): Json {
    Str(DisplayNodeId(id))
  }

  /** `Deserialize for NodeId`: a JSON string that parses as a node id. */
  function DeserializeNodeId(j: Json): (r: Result<NodeId, IdError>)
    ensures !j.Str? ==> r == Err(InvalidType)
    ensures j.Str? ==> r == ParseNodeId(j.s)
  {
    if j.Str? then ParseNodeId(j.s) else Err(InvalidType)
  }

  // ---- client ids --------------------------------------------------------

  /** `Display for ClientId`: `c` followed by the decimal number. */
  function DisplayClientId(id: ClientId): string {
    "c" + Decimal.Display(id.n)
  }

  /** The string part of `Deserialize for ClientId`. */
  function ParseClientId(s: string): (r: Result<ClientId, IdError>)
    ensures r.Ok? <==> |s| > 0 && s[0] == 'c' && Decimal.ParseU64(s[1..]).Ok?
    ensures r.Ok? ==> r.value.n == Decimal.ParseU64(s[1..]).value
    ensures (|s| == 0 || s[0] != 'c') ==> r == Err(Custom(CLIENT_PREFIX_ERROR))
  {
    match StripPrefix(s, 'c')
    case Some(rest) =>
      var n :- ParseNumber(rest);
      Ok(ClientId(n))
    case None => Err(Custom(CLIENT_PREFIX_ERROR))
  }

  function SerializeClientId(id: ClientId): Json {
    Str(DisplayClientId(id))
  }

  function DeserializeClientId(j: Json): (r: Result<ClientId, IdError>)
    ensures !j.Str? ==> r == Err(InvalidType)
    ensures j.Str? ==> r == ParseClientId(j.s)
  {
    if j.Str? then ParseClientId(j.s) else Err(InvalidType)
  }

  // ---- peer ids ----------------------------------------------------------

  /** `Display for PeerId`: the display of the node or client id inside. */
  function DisplayPeerId(p: PeerId): string {
    match p
    case Node(id) => DisplayNodeId(id)
    case Client(id) => DisplayClientId(id)
  }

  /** The string part of `Deserialize for PeerId`: `n...` is a node, `c...` a client. */
  function ParsePeerId(s: string): (r: Result<PeerId, IdError>)
    ensures r.Ok? && r.value.Node? <==> ParseNodeId(s).Ok?
    ensures r.Ok? && r.value.Node? ==> r.value.node == ParseNodeId(s).value
    ensures r.Ok? && r.value.Client? <==> ParseClientId(s).Ok?
    ensures r.Ok? && r.value.Client? ==> r.value.client == ParseClientId(s).value
    ensures (|s| == 0 || (s[0] != 'n' && s[0] != 'c')) ==> r == Err(Custom(UNKNOWN_PEER_ERROR))
  {
    if StripPrefix(s, 'n').Some? then
      var n :- ParseNumber(s[1..]);
      Ok(Node(NodeId(n)))
    else if StripPrefix(s, 'c').Some? then
      var n :- ParseNumber(s[1..]);
      Ok(Client(ClientId(n)))
    else
      Err(Custom(UNKNOWN_PEER_ERROR))
  }

  function SerializePeerId(p: PeerId): Json {
    Str(DisplayPeerId(p))
  }

  function DeserializePeerId(j: Json): (r: Result<PeerId, IdError>)
    ensures !j.Str? ==> r == Err(InvalidType)
    ensures j.Str? ==> r == ParsePeerId(j.s)
  {
    if j.Str? then ParsePeerId(j.s) else Err(InvalidType)
  }

  // ---- round trips -------------------------------------------------------

  lemma NodeIdRoundTrip(id: NodeId)
    ensures DeserializeNodeId(SerializeNodeId(id)) == Ok(id)
  {
    Decimal.ParseDisplay(id.n);
    assert DisplayNodeId(id)[1..] == Decimal.Display(id.n);
  }

  lemma ClientIdRoundTrip(id: ClientId)
    ensures DeserializeClientId(SerializeClientId(id)) == Ok(id)
  {
    Decimal.ParseDisplay(id.n);
    assert DisplayClientId(id)[1..] == Decimal.Display(id.n);
  }

  lemma PeerIdRoundTrip(p: PeerId)
    ensures DeserializePeerId(SerializePeerId(p)) == Ok(p)
  {
    match p
    case Node(id) => NodeIdRoundTrip(id);
    case Client(id) => ClientIdRoundTrip(id);
  }

  /** Node and client texts never collide: a parsed peer id keeps its kind. */
  lemma PeerKindsDisjoint(s: string)
    ensures !(ParseNodeId(s).Ok? && ParseClientId(s).Ok?)
  {
  }
}
