/**
 * The per-connection protocol handler. The socket is modelled by the
 * sequence of messages this client's handlers write to it; the registry is
 * passed to each call.
 */
module Net {
  import opened Wrappers
  import opened Protocol
  import opened Channels
  import opened Registry
  import opened Dispatch

  class Client {
    /**
     * The messages this client's handlers write to its socket, oldest first.
     * Broadcasts made by `Channel.set` are not included.
     */
    var written: seq<Msg>

    constructor ()
      ensures written == []
    {
      written := [];
    }

    /** Removes this client from the subscriber set of every registered channel. */
    method Destroy(reg: NodeManager)
      modifies reg.channels.Values
      ensures forall ch :: ch in reg.channels.Values ==>
        ch.data == old(ch.data) && ch.clients == old(ch.clients) - {this}
      ensures Snapshot(reg.Reachable()) == Detach(old(Snapshot(reg.Reachable())), reg.channels.Values, this)
    {
      ghost var before := Snapshot(reg.Reachable());
      var pending := reg.channels.Values;
      while pending != {}
        invariant pending <= reg.channels.Values
        invariant forall ch :: ch in reg.channels.Values ==>
          ch.data == old(ch.data) &&
          ch.clients == if ch in pending then old(ch.clients) else old(ch.clients) - {this}
        decreases pending
      {
        var ch :| ch in pending;
        ch.clients := ch.clients - {this};
        pending := pending - {ch};
      }
      DetachedAt(before, Snapshot(reg.Reachable()), reg.channels.Values, this);
    }

    /** Builds the message for `t` and writes it; a type with no case writes nothing. */
    method Send(t: OutType, d: SendData)
      requires Fits(t, d)
      modifies this
      ensures written == old(written) + Written(Outgoing(t, d))
    {
      match t
      case NodeListType =>
        SendRaw(Some(NodeList(d.nodeIds)));
      case ChannelUpdateType =>
        SendRaw(Some(ChannelUpdate(d.channel.id, d.channel.data)));
      case ChannelListResult =>
    }

    /** Writes `raw` unless it is `undefined`. */
    method SendRaw(raw: Option<Msg>)
      modifies this
      ensures raw.Some? ==> written == old(written) + [raw.value]
      ensures raw.None? ==> written == old(written)
    {
      if raw.Some? {
        written := written + [raw.value];
      }
    }

    /**
     * Handles one request. A lookup of a missing node or channel ends the
     * call with `Rejected` before anything is changed or written.
     */
    method HandleRequest(reg: NodeManager, req: Request) returns (outcome: Outcome)
      modifies this, reg.Reachable()
      ensures var s := Step(reg, old(Snapshot(reg.Reachable())), this, req);
        && outcome == s.outcome
        && Snapshot(reg.Reachable()) == s.heap
        && written == old(written) + s.out
    {
      match req
      case NodeListReq =>
        outcome := HandleNodeList(reg);
      case ChannelListReq(nodeId) =>
        outcome := HandleChannelList(reg, nodeId);
      case ChannelReadReq(nodeId, name) =>
        outcome := HandleChannelRead(reg, nodeId, name);
      case ChannelSendReq(nodeId, name, data) =>
        outcome := HandleChannelSend(reg, nodeId, name, data);
      case ChannelWatchReq(nodeId, name) =>
        outcome := HandleChannelWatch(reg, nodeId, name);
      case ChannelUnwatchReq(nodeId, name) =>
        outcome := HandleChannelUnwatch(reg, nodeId, name);
      case UnknownType =>
        outcome := Handled;
    }

    /** The NODE_LIST case: replies with the ids of the registry's nodes. */
    method HandleNodeList(reg: NodeManager) returns (outcome: Outcome)
      modifies this
      ensures var s := Step(reg, old(Snapshot(reg.Reachable())), this, NodeListReq);
        outcome == s.outcome && written == old(written) + s.out
    {
      Send(NodeListType, NodeIdsData(reg.nodeOrder));
      outcome := Handled;
    }

    /** The NODE_CHANNEL_LIST case: passes the node's channel list to `send` as its type. */
    method HandleChannelList(reg: NodeManager, nodeId: NodeId) returns (outcome: Outcome)
      modifies this
      ensures var s := Step(reg, old(Snapshot(reg.Reachable())), this, ChannelListReq(nodeId));
        outcome == s.outcome && written == old(written) + s.out
    {
      if nodeId !in reg.nodes {
        return Rejected(NodeNotFound);
      }
      Send(ChannelListResult, NoData);
      outcome := Handled;
    }

    /** The NODE_CHANNEL_READ case: replies with the channel's current value. */
    method HandleChannelRead(reg: NodeManager, nodeId: NodeId, name: ChannelName) returns (outcome: Outcome)
      modifies this
      ensures var s := Step(reg, old(Snapshot(reg.Reachable())), this, ChannelReadReq(nodeId, name));
        outcome == s.outcome && written == old(written) + s.out
    {
      var found := reg.Resolve(nodeId, name);
      if found.Err? {
        return Rejected(found.error);
      }
      var channel := found.value;
      Send(ChannelUpdateType, ChannelData(ChannelView(channel.id, channel.data)));
      outcome := Handled;
    }

    /** The NODE_CHANNEL_SEND case: sets the data and answers a sender that is not subscribed. */
    method HandleChannelSend(reg: NodeManager, nodeId: NodeId, name: ChannelName, data: Value)
      returns (outcome: Outcome)
      modifies this, reg.Reachable()
      ensures var s := Step(reg, old(Snapshot(reg.Reachable())), this, ChannelSendReq(nodeId, name, data));
        && outcome == s.outcome
        && Snapshot(reg.Reachable()) == s.heap
        && written == old(written) + s.out
    {
      var found := reg.Resolve(nodeId, name);
      if found.Err? {
        return Rejected(found.error);
      }
      var channel := found.value;
      ghost var before := Snapshot(reg.Reachable());
      channel.Set(data);
      UpdatedAt(before, Snapshot(reg.Reachable()), channel);
      if this !in channel.clients {
        Send(ChannelUpdateType, ChannelData(ChannelView(channel.id, channel.data)));
      }
      outcome := Handled;
    }

    /** The NODE_CHANNEL_WATCH case: subscribes and replies with the current value. */
    method HandleChannelWatch(reg: NodeManager, nodeId: NodeId, name: ChannelName) returns (outcome: Outcome)
      modifies this, reg.Reachable()
      ensures var s := Step(reg, old(Snapshot(reg.Reachable())), this, ChannelWatchReq(nodeId, name));
        && outcome == s.outcome
        && Snapshot(reg.Reachable()) == s.heap
        && written == old(written) + s.out
    {
      var found := reg.Resolve(nodeId, name);
      if found.Err? {
        return Rejected(found.error);
      }
      var channel := found.value;
      ghost var before := Snapshot(reg.Reachable());
      channel.Watch(this);
      UpdatedAt(before, Snapshot(reg.Reachable()), channel);
      Send(ChannelUpdateType, ChannelData(ChannelView(channel.id, channel.data)));
      outcome := Handled;
    }

    /** The NODE_CHANNEL_UNWATCH case: unsubscribes and writes nothing. */
    method HandleChannelUnwatch(reg: NodeManager, nodeId: NodeId, name: ChannelName) returns (outcome: Outcome)
      modifies this, reg.Reachable()
      ensures var s := Step(reg, old(Snapshot(reg.Reachable())), this, ChannelUnwatchReq(nodeId, name));
        && outcome == s.outcome
        && Snapshot(reg.Reachable()) == s.heap
        && written == old(written) + s.out
    {
      var found := reg.Resolve(nodeId, name);
      if found.Err? {
        return Rejected(found.error);
      }
      var channel := found.value;
      ghost var before := Snapshot(reg.Reachable());
      channel.Unwatch(this);
      UpdatedAt(before, Snapshot(reg.Reachable()), channel);
      outcome := Handled;
    }
  }
}
