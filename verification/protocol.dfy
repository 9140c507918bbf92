/**
 * The vocabulary of the per-connection protocol: identifiers, inbound
 * requests, outbound message types and the messages a client writes to its
 * socket.
 */
module Protocol {
  import opened Wrappers

  type NodeId = string
  type ChannelName = string
  type ChannelId = string

  /** A channel payload. The broker never looks inside it. */
  type Value = string

  /**
   * An inbound request, one variant per `type` the dispatcher recognises,
   * each carrying the fields its case reads. `UnknownType` is a request
   * whose `type` equals none of the recognised constants.
   */
  datatype Request =
    | NodeListReq
    | ChannelListReq(nodeId: NodeId)
    | ChannelReadReq(nodeId: NodeId, channelName: ChannelName)
    | ChannelSendReq(nodeId: NodeId, channelName: ChannelName, data: Value)
    | ChannelWatchReq(nodeId: NodeId, channelName: ChannelName)
    | ChannelUnwatchReq(nodeId: NodeId, channelName: ChannelName)
    | UnknownType

  /**
   * The `type` argument of `send`: one of the two output constants, or the
   * value `node.listChannel()` returns, which the NODE_CHANNEL_LIST case
   * passes in that position. `listChannel` is not part of this model; its
   * result is assumed to equal neither constant, and the call is assumed not
   * to throw for an existing node.
   */
  datatype OutType = NodeListType | ChannelUpdateType | ChannelListResult

  /** What `send` reads of a channel: its id and its current data. */
  datatype ChannelView = ChannelView(id: ChannelId, data: Value)

  /** The `data` argument of `send`. `NoData` is `undefined`. */
  datatype SendData =
    | NodeIdsData(nodeIds: seq<NodeId>)
    | ChannelData(channel: ChannelView)
    | NoData

  /** A message written to the socket; the constructor is its `type` field. */
  datatype Msg =
    | NodeList(nodeIds: seq<NodeId>)
    | ChannelUpdate(id: ChannelId, data: Value)

  /** Every caller of `send` passes the data shape its type destructures. */
  predicate Fits(t: OutType, d: SendData) {
    && (t.NodeListType? ==> d.NodeIdsData?)
    && (t.ChannelUpdateType? ==> d.ChannelData?)
  }

  /** The `type` field of a written message. */
  function TypeOf(m: Msg): OutType {
    match m
    case NodeList(_) => NodeListType
    case ChannelUpdate(_, _) => ChannelUpdateType
  }

  /** The `data` argument that `send` turns into message `m`. */
  function PayloadOf(m: Msg): SendData {
    match m
    case NodeList(ids) => NodeIdsData(ids)
    case ChannelUpdate(id, v) => ChannelData(ChannelView(id, v))
  }

  /**
   * The message `send(type, data)` hands to `sendRaw`, or `None` when the
   * switch has no case for `type` (there is no default branch).
   */
  function Outgoing(t: OutType, d: SendData): (m: Option<Msg>)
    requires Fits(t, d)
    ensures m.Some? <==> t != ChannelListResult
    ensures m.Some? ==> TypeOf(m.value) == t && PayloadOf(m.value) == d
  {
    match t
    case NodeListType => Some(NodeList(d.nodeIds))
    case ChannelUpdateType => Some(ChannelUpdate(d.channel.id, d.channel.data))
    case ChannelListResult => None
  }

  /** What `sendRaw` writes: one message, or nothing for `undefined`. */
  function Written(raw: Option<Msg>): (w: seq<Msg>)
    ensures |w| <= 1
    ensures w == [] <==> raw.None?
  {
    match raw
    case Some(m) => [m]
    case None => []
  }

  /** Every message is what `send` produces from its own type and payload. */
  lemma OutgoingRoundTrip(m: Msg)
    ensures Fits(TypeOf(m), PayloadOf(m))
    ensures Outgoing(TypeOf(m), PayloadOf(m)) == Some(m)
  {
  }

  /** `send` writes exactly one message for the two output types, none otherwise. */
  lemma SendWritesOneOrNone(t: OutType, d: SendData)
    requires Fits(t, d)
    ensures |Written(Outgoing(t, d))| == if t == ChannelListResult then 0 else 1
  {
  }
}
